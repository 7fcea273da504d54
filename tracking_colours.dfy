/**
 * Colour assignment of the tracking operator (`_setLabel2Color`, with
 * successive ids): per-frame event lists become one id -> colour map and
 * one id -> object-count map per frame. Fresh colours come from a counter
 * that starts at 1 and only grows; filtered labels are coloured 0.
 *
 * The functions here specify the operator's loops step by step; the
 * operator itself (module Tracking) runs them as loops over its fields.
 */
module TrackingColours {
  import opened Wrappers
  import opened Builtins

  /** The events of one transition, from frame f-1 to frame f. */
  datatype FrameEvents = FrameEvents(
    app: seq<int>,                 // appearance: id
    mov: seq<(int, int)>,          // move: (id in f-1, id in f)
    div: seq<(int, int, int)>,     // division: (parent in f-1, child, child in f)
    merger: seq<(int, int)>)       // merger: (id in f, number of objects)

  /** The operator's Parameters value; only the time range matters here. */
  datatype Params = Params(timeRange: Option<(int, int)>)

  datatype TrackingError =
    | NotReady(slot: string)
    /** KeyError: the parameters have no time range. */
    | MissingTimeRange
    /** IndexError: the time range `range(time_min, time_max)` is empty, so it has no first element. */
    | EmptyTimeRange
    /** KeyError: no events for this transition. */
    | MissingFrameEvents(key: string)
    /** IndexError: a filtered frame before the first stored frame. */
    | FilteredFrameOutOfRange(frameKey: int)
    /** AssertionError: a filtered id already has a colour. */
    | AlreadyColoured(frame: nat, id: int)

  /** The loop state: colour maps, merger maps, the sources moved so far in this frame, the next fresh id. */
  datatype Colouring = Colouring(l2c: seq<map<int, int>>, mergers: seq<map<int, int>>, movesAt: seq<int>, next: int)

  /** At least a previous and a current frame, with merger maps alongside. */
  predicate Opened(c: Colouring) { |c.l2c| >= 2 && |c.mergers| >= 1 }

  function Prev(c: Colouring): map<int, int> requires Opened(c) { c.l2c[|c.l2c| - 2] }
  function Cur(c: Colouring): map<int, int> requires Opened(c) { c.l2c[|c.l2c| - 1] }

  /** Only the last two colour maps and the last merger map differ; lengths are kept. */
  predicate SameShape(c: Colouring, r: Colouring)
    requires Opened(c)
  {
    && |r.l2c| == |c.l2c| && |r.mergers| == |c.mergers|
    && r.l2c[..|c.l2c| - 2] == c.l2c[..|c.l2c| - 2]
    && r.mergers[..|c.mergers| - 1] == c.mergers[..|c.mergers| - 1]
  }

  function FreshPrev(c: Colouring, id: int): (r: Colouring)
    requires Opened(c)
    ensures Opened(r) && SameShape(c, r) && Cur(r) == Cur(c) && r.mergers == c.mergers
    ensures id in Prev(r) && Prev(r)[id] == c.next && r.next == c.next + 1
  {
    c.(l2c := c.l2c[|c.l2c| - 2 := Prev(c)[id := c.next]], next := c.next + 1)
  }

  // -----------------------------------------------------------------------
  // One event

  /** An appearing id gets the next fresh colour. */
  function Appear(c: Colouring, id: int): (r: Colouring)
    requires Opened(c)
    ensures Opened(r) && SameShape(c, r) && Prev(r) == Prev(c) && r.mergers == c.mergers
    ensures Cur(r) == Cur(c)[id := c.next] && r.next == c.next + 1
  {
    c.(l2c := c.l2c[|c.l2c| - 1 := Cur(c)[id := c.next]], next := c.next + 1)
  }

  /**
   * A moved id takes its source's colour. A source without a colour, or
   * one that has already moved in this frame, first gets a fresh one.
   */
  function Move(c: Colouring, src: int, dst: int): (r: Colouring)
    requires Opened(c)
    ensures Opened(r) && SameShape(c, r) && r.mergers == c.mergers
    ensures src in Prev(r) && Cur(r) == Cur(c)[dst := Prev(r)[src]]
    ensures r.movesAt == c.movesAt + [src]
    ensures src !in Prev(c) || src in c.movesAt ==>
              Prev(r) == Prev(c)[src := c.next] && r.next == c.next + 1
    ensures src in Prev(c) && src !in c.movesAt ==> Prev(r) == Prev(c) && r.next == c.next
  {
    var s := if src !in Prev(c) || src in c.movesAt then FreshPrev(c, src) else c;
    s.(l2c := s.l2c[|s.l2c| - 1 := Cur(s)[dst := Prev(s)[src]]], movesAt := s.movesAt + [src])
  }

  /** Both children of a division take the parent's colour (fresh if the parent had none). */
  function Divide(c: Colouring, parent: int, child1: int, child2: int): (r: Colouring)
    requires Opened(c)
    ensures Opened(r) && SameShape(c, r) && r.mergers == c.mergers && r.movesAt == c.movesAt
    ensures parent in Prev(r) && Cur(r) == Cur(c)[child1 := Prev(r)[parent]][child2 := Prev(r)[parent]]
    ensures parent !in Prev(c) ==> Prev(r) == Prev(c)[parent := c.next] && r.next == c.next + 1
    ensures parent in Prev(c) ==> Prev(r) == Prev(c) && r.next == c.next
  {
    var s := if parent !in Prev(c) then FreshPrev(c, parent) else c;
    var colour := Prev(s)[parent];
    s.(l2c := s.l2c[|s.l2c| - 1 := Cur(s)[child1 := colour][child2 := colour]])
  }

  /** A merger records its object count in the current merger map. */
  function Merge(c: Colouring, id: int, count: int): (r: Colouring)
    requires Opened(c)
    ensures Opened(r) && SameShape(c, r) && r.l2c == c.l2c && r.next == c.next && r.movesAt == c.movesAt
    ensures r.mergers[|r.mergers| - 1] == c.mergers[|c.mergers| - 1][id := count]
  {
    c.(mergers := c.mergers[|c.mergers| - 1 := c.mergers[|c.mergers| - 1][id := count]])
  }

  // -----------------------------------------------------------------------
  // The four event loops of a frame, as functions of how far they have got

  function RunApps(c: Colouring, app: seq<int>): (r: Colouring)
    requires Opened(c)
    ensures Opened(r) && SameShape(c, r)
    decreases |app|
  {
    if app == [] then c else Appear(RunApps(c, app[..|app| - 1]), app[|app| - 1])
  }

  function RunMoves(c: Colouring, mov: seq<(int, int)>): (r: Colouring)
    requires Opened(c)
    ensures Opened(r) && SameShape(c, r)
    decreases |mov|
  {
    if mov == [] then c
    else
      var e := mov[|mov| - 1];
      Move(RunMoves(c, mov[..|mov| - 1]), e.0, e.1)
  }

  function RunDivs(c: Colouring, div: seq<(int, int, int)>): (r: Colouring)
    requires Opened(c)
    ensures Opened(r) && SameShape(c, r)
    decreases |div|
  {
    if div == [] then c
    else
      var e := div[|div| - 1];
      Divide(RunDivs(c, div[..|div| - 1]), e.0, e.1, e.2)
  }

  function RunMergers(c: Colouring, merger: seq<(int, int)>): (r: Colouring)
    requires Opened(c)
    ensures Opened(r) && SameShape(c, r)
    decreases |merger|
  {
    if merger == [] then c
    else
      var e := merger[|merger| - 1];
      Merge(RunMergers(c, merger[..|merger| - 1]), e.0, e.1)
  }

  /** A new frame: an empty colour map, an empty merger map, no moves yet. */
  function Open(c: Colouring): (r: Colouring)
    ensures Opened(r) || |c.l2c| == 0
    ensures |r.l2c| == |c.l2c| + 1 && |r.mergers| == |c.mergers| + 1
  {
    c.(l2c := c.l2c + [map[]], mergers := c.mergers + [map[]], movesAt := [])
  }

  /** One transition: appearances, then moves, then divisions, then mergers. */
  function Frame(c: Colouring, ev: FrameEvents): (r: Colouring)
    requires |c.l2c| >= 1
    ensures |r.l2c| == |c.l2c| + 1 && |r.mergers| == |c.mergers| + 1
  {
    RunMergers(RunDivs(RunMoves(RunApps(Open(c), ev.app), ev.mov), ev.div), ev.merger)
  }

  /** Before the first transition: one empty map, plus one per frame before the start time. */
  function Initial(tmin: int): (c: Colouring)
    ensures |c.l2c| == |c.mergers| == 1 + Max0(tmin) && c.next == 1
  {
    Colouring(seq(1 + Max0(tmin), _ => map[]), seq(1 + Max0(tmin), _ => map[]), [], 1)
  }

  function Max0(x: int): nat { if x > 0 then x else 0 }

  /** The transitions 1 .. n have events, under the decimal keys "1" .. str(n). */
  predicate HasEvents(events: map<string, FrameEvents>, n: nat) {
    forall k: nat :: 1 <= k <= n ==> NatToString(k) in events
  }

  /**
   * The first `n` transitions, as the frame loop runs them: transition `k`
   * reads the events under `str(k)`, and a missing key (a KeyError) stops it.
   */
  function Frames(c: Colouring, events: map<string, FrameEvents>, n: nat): (r: Result<Colouring, TrackingError>)
    requires |c.l2c| >= 1
    ensures r.Success? ==> |r.value.l2c| >= 1
    decreases n
  {
    if n == 0 then Success(c)
    else
      match Frames(c, events, n - 1)
      case Failure(e) => Failure(e)
      case Success(p) =>
        var key := NatToString(n);
        if key !in events then Failure(MissingFrameEvents(key)) else Success(Frame(p, events[key]))
  }

  /** Each transition adds one colour map and one merger map. */
  lemma {:induction false} FramesLength(c: Colouring, events: map<string, FrameEvents>, n: nat)
    requires |c.l2c| >= 1 && Frames(c, events, n).Success?
    ensures |Frames(c, events, n).value.l2c| == |c.l2c| + n
    ensures |Frames(c, events, n).value.mergers| == |c.mergers| + n
    decreases n
  {
    if n > 0 {
      FramesLength(c, events, n - 1);
    }
  }

  /** `k` is the first transition without events. */
  predicate FirstMissing(events: map<string, FrameEvents>, k: nat) {
    1 <= k && NatToString(k) !in events && forall j: nat :: 1 <= j < k ==> NatToString(j) in events
  }

  /** The frame loop gets through exactly when every transition has events; otherwise it reports the first missing key. */
  lemma {:induction false} FramesKeys(c: Colouring, events: map<string, FrameEvents>, n: nat)
    requires |c.l2c| >= 1
    ensures Frames(c, events, n).Success? <==> HasEvents(events, n)
    ensures Frames(c, events, n).Failure? ==>
      exists k: nat :: k <= n && FirstMissing(events, k) && Frames(c, events, n).error == MissingFrameEvents(NatToString(k))
    decreases n
  {
    if n > 0 {
      FramesKeys(c, events, n - 1);
      if Frames(c, events, n - 1).Success? {
        if NatToString(n) in events {
          assert HasEvents(events, n) by {
            forall k: nat | 1 <= k <= n ensures NatToString(k) in events {
              if k < n {
                assert HasEvents(events, n - 1);
              }
            }
          }
        } else {
          assert FirstMissing(events, n);
        }
      } else {
        var k: nat :| k <= n - 1 && FirstMissing(events, k) && Frames(c, events, n - 1).error == MissingFrameEvents(NatToString(k));
        assert Frames(c, events, n).error == MissingFrameEvents(NatToString(k));
      }
    }
  }

  // -----------------------------------------------------------------------
  // Marking filtered labels

  /** One id of a filtered frame gets colour 0; it must not be coloured yet. */
  function MarkLabels(l2c: seq<map<int, int>>, frame: nat, labels: seq<int>): (r: Result<seq<map<int, int>>, TrackingError>)
    requires frame < |l2c|
    ensures r.Success? ==> |r.value| == |l2c|
    decreases |labels|
  {
    if labels == [] then Success(l2c)
    else
      match MarkLabels(l2c, frame, labels[..|labels| - 1])
      case Failure(e) => Failure(e)
      case Success(m) =>
        var l := labels[|labels| - 1];
        if l in m[frame] then Failure(AlreadyColoured(frame, l))
        else Success(m[frame := m[frame][l := 0]])
  }

  /**
   * One filtered entry: a key whose frame lies beyond the list is skipped; one
   * before the list is an IndexError as soon as its first id is looked up.
   */
  function MarkEntry(l2c: seq<map<int, int>>, key: int, labels: seq<int>, tmin: int): (r: Result<seq<map<int, int>>, TrackingError>)
    ensures r.Success? ==> |r.value| == |l2c|
  {
    var f := key + tmin;
    if f >= |l2c| then Success(l2c)
    else
      match PyIndex(|l2c|, f)
      case None => if labels == [] then Success(l2c) else Failure(FilteredFrameOutOfRange(key))
      case Some(frame) => MarkLabels(l2c, frame, labels)
  }

  function Mark(l2c: seq<map<int, int>>, filtered: seq<(int, seq<int>)>, tmin: int): (r: Result<seq<map<int, int>>, TrackingError>)
    ensures r.Success? ==> |r.value| == |l2c|
    decreases |filtered|
  {
    if filtered == [] then Success(l2c)
    else
      match Mark(l2c, filtered[..|filtered| - 1], tmin)
      case Failure(e) => Failure(e)
      case Success(m) =>
        var entry := filtered[|filtered| - 1];
        MarkEntry(m, entry.0, entry.1, tmin)
  }

  /** The whole of `_setLabel2Color` once its three inputs are ready. */
  function Label2Color(events: map<string, FrameEvents>, timeRange: Option<(int, int)>,
                       filtered: seq<(int, seq<int>)>): Result<Colouring, TrackingError>
  {
    if timeRange.None? then Failure(MissingTimeRange)
    else
      var tmin := timeRange.value.0;
      var tmax := timeRange.value.1;
      if tmax <= tmin then Failure(EmptyTimeRange)
      else
      var n: nat := tmax - tmin;
      match Frames(Initial(tmin), events, n)
      case Failure(e) => Failure(e)
      case Success(c) =>
        match Mark(c.l2c, filtered, tmin)
        case Failure(e) => Failure(e)
        case Success(l2c) => Success(c.(l2c := l2c))
  }

  // -----------------------------------------------------------------------
  // Properties

  /**
   * A colouring exists only for a non-empty time range, and both lists get one
   * map per frame up to the end time: `time_max + 1` maps when `time_min >= 0`.
   */
  lemma Label2ColorLength(events: map<string, FrameEvents>, tmin: int, tmax: int, filtered: seq<(int, seq<int>)>)
    requires Label2Color(events, Some((tmin, tmax)), filtered).Success?
    ensures tmin < tmax
    ensures var c := Label2Color(events, Some((tmin, tmax)), filtered).value;
      && |c.l2c| == |c.mergers| == 1 + Max0(tmin) + (tmax - tmin)
      && (0 <= tmin ==> |c.l2c| == |c.mergers| == tmax + 1)
  {
    FramesLength(Initial(tmin), events, tmax - tmin);
  }

  /**
   * The errors of `_setLabel2Color`, in the order the source meets them: no
   * time range, an empty one, the first transition without events, and then
   * whatever marking the filtered labels raises (see MarkFailure).
   */
  lemma Label2ColorErrors(events: map<string, FrameEvents>, timeRange: Option<(int, int)>, filtered: seq<(int, seq<int>)>)
    ensures timeRange.None? ==> Label2Color(events, timeRange, filtered) == Failure(MissingTimeRange)
    ensures timeRange.Some? && timeRange.value.1 <= timeRange.value.0 ==>
              Label2Color(events, timeRange, filtered) == Failure(EmptyTimeRange)
    ensures timeRange.Some? && timeRange.value.0 < timeRange.value.1 && !HasEvents(events, timeRange.value.1 - timeRange.value.0) ==>
              exists k: nat :: k <= timeRange.value.1 - timeRange.value.0 && FirstMissing(events, k)
                && Label2Color(events, timeRange, filtered) == Failure(MissingFrameEvents(NatToString(k)))
    ensures Label2Color(events, timeRange, filtered).Success? ==>
              timeRange.Some? && timeRange.value.0 < timeRange.value.1 && HasEvents(events, timeRange.value.1 - timeRange.value.0)
    ensures timeRange.Some? && timeRange.value.0 < timeRange.value.1 && HasEvents(events, timeRange.value.1 - timeRange.value.0) ==>
              var tmin := timeRange.value.0;
              var frames := Frames(Initial(tmin), events, timeRange.value.1 - tmin);
              && frames.Success?
              && (Label2Color(events, timeRange, filtered).Success? <==> Mark(frames.value.l2c, filtered, tmin).Success?)
              && (Label2Color(events, timeRange, filtered).Failure? ==>
                    Label2Color(events, timeRange, filtered).error == Mark(frames.value.l2c, filtered, tmin).error)
  {
    if timeRange.Some? && timeRange.value.0 < timeRange.value.1 {
      var tmin := timeRange.value.0;
      var n: nat := timeRange.value.1 - tmin;
      FramesKeys(Initial(tmin), events, n);
    }
  }

  /** Every colour in use is below the next fresh id, and all fresh ids handed out are >= 1. */
  ghost predicate Bounded(c: Colouring) {
    && c.next >= 1
    && forall f, l :: 0 <= f < |c.l2c| && l in c.l2c[f] ==> 1 <= c.l2c[f][l] < c.next
  }

  /** A fresh colour differs from every colour already in use. */
  lemma FreshColourUnused(c: Colouring, f: nat, l: int)
    requires Bounded(c) && f < |c.l2c| && l in c.l2c[f]
    ensures c.l2c[f][l] != c.next
  {
  }

  /** Every colour of `m` is a handed-out fresh id below `next`. */
  ghost predicate MapBounded(m: map<int, int>, next: int) {
    forall l :: l in m ==> 1 <= m[l] < next
  }

  /** A step that changes only the last two colour maps keeps the bound when those two maps keep it. */
  lemma BoundedFromLastTwo(c: Colouring, r: Colouring)
    requires Opened(c) && Bounded(c) && SameShape(c, r) && Opened(r) && c.next <= r.next
    requires MapBounded(Prev(r), r.next) && MapBounded(Cur(r), r.next)
    ensures Bounded(r)
  {
    forall f, l | 0 <= f < |r.l2c| && l in r.l2c[f]
      ensures 1 <= r.l2c[f][l] < r.next
    {
      if f < |c.l2c| - 2 {
        assert r.l2c[f] == r.l2c[..|c.l2c| - 2][f] == c.l2c[f];
      }
    }
  }

  lemma AppearBounded(c: Colouring, id: int)
    requires Opened(c) && Bounded(c)
    ensures Bounded(Appear(c, id)) && Appear(c, id).next == c.next + 1
  {
    var r := Appear(c, id);
    assert MapBounded(Prev(c), c.next) && MapBounded(Cur(c), c.next);
    BoundedFromLastTwo(c, r);
  }

  lemma MoveBounded(c: Colouring, src: int, dst: int)
    requires Opened(c) && Bounded(c)
    ensures Bounded(Move(c, src, dst)) && Move(c, src, dst).next >= c.next
  {
    var r := Move(c, src, dst);
    assert MapBounded(Prev(c), c.next) && MapBounded(Cur(c), c.next);
    BoundedFromLastTwo(c, r);
  }

  lemma DivideBounded(c: Colouring, parent: int, child1: int, child2: int)
    requires Opened(c) && Bounded(c)
    ensures Bounded(Divide(c, parent, child1, child2)) && Divide(c, parent, child1, child2).next >= c.next
  {
    var r := Divide(c, parent, child1, child2);
    assert MapBounded(Prev(c), c.next) && MapBounded(Cur(c), c.next);
    BoundedFromLastTwo(c, r);
  }

  lemma {:induction false} RunAppsBounded(c: Colouring, app: seq<int>)
    requires Opened(c) && Bounded(c)
    ensures Bounded(RunApps(c, app)) && RunApps(c, app).next == c.next + |app|
    decreases |app|
  {
    if app != [] {
      RunAppsBounded(c, app[..|app| - 1]);
      AppearBounded(RunApps(c, app[..|app| - 1]), app[|app| - 1]);
    }
  }

  lemma {:induction false} RunMovesBounded(c: Colouring, mov: seq<(int, int)>)
    requires Opened(c) && Bounded(c)
    ensures Bounded(RunMoves(c, mov)) && RunMoves(c, mov).next >= c.next
    decreases |mov|
  {
    if mov != [] {
      RunMovesBounded(c, mov[..|mov| - 1]);
      var e := mov[|mov| - 1];
      MoveBounded(RunMoves(c, mov[..|mov| - 1]), e.0, e.1);
    }
  }

  lemma {:induction false} RunDivsBounded(c: Colouring, div: seq<(int, int, int)>)
    requires Opened(c) && Bounded(c)
    ensures Bounded(RunDivs(c, div)) && RunDivs(c, div).next >= c.next
    decreases |div|
  {
    if div != [] {
      RunDivsBounded(c, div[..|div| - 1]);
      var e := div[|div| - 1];
      DivideBounded(RunDivs(c, div[..|div| - 1]), e.0, e.1, e.2);
    }
  }

  lemma {:induction false} RunMergersBounded(c: Colouring, merger: seq<(int, int)>)
    requires Opened(c) && Bounded(c)
    ensures Bounded(RunMergers(c, merger)) && RunMergers(c, merger).next == c.next
    decreases |merger|
  {
    if merger != [] {
      RunMergersBounded(c, merger[..|merger| - 1]);
    }
  }

  lemma OpenBounded(c: Colouring)
    requires Bounded(c)
    ensures Bounded(Open(c)) && Open(c).next == c.next
  {
    var o := Open(c);
    forall f, l | 0 <= f < |o.l2c| && l in o.l2c[f] ensures 1 <= o.l2c[f][l] < o.next {
      assert f < |c.l2c| && o.l2c[f] == c.l2c[f];
    }
  }

  lemma FrameBounded(c: Colouring, ev: FrameEvents)
    requires |c.l2c| >= 1 && Bounded(c)
    ensures Bounded(Frame(c, ev)) && Frame(c, ev).next >= c.next
  {
    var o := Open(c);
    OpenBounded(c);
    RunAppsBounded(o, ev.app);
    var a := RunApps(o, ev.app);
    RunMovesBounded(a, ev.mov);
    var m := RunMoves(a, ev.mov);
    RunDivsBounded(m, ev.div);
    RunMergersBounded(RunDivs(m, ev.div), ev.merger);
  }

  lemma {:induction false} FramesBounded(c: Colouring, events: map<string, FrameEvents>, n: nat)
    requires |c.l2c| >= 1 && Bounded(c) && Frames(c, events, n).Success?
    ensures Bounded(Frames(c, events, n).value) && Frames(c, events, n).value.next >= c.next
    decreases n
  {
    if n > 0 {
      FramesBounded(c, events, n - 1);
      FrameBounded(Frames(c, events, n - 1).value, events[NatToString(n)]);
    }
  }

  /**
   * Marking one frame adds exactly the given labels to it, all with colour 0,
   * keeps every existing colour, and leaves the other frames alone.
   */
  lemma {:induction false} MarkLabelsAddsZeros(l2c: seq<map<int, int>>, frame: nat, labels: seq<int>)
    requires frame < |l2c| && MarkLabels(l2c, frame, labels).Success?
    ensures var r := MarkLabels(l2c, frame, labels).value;
      && (forall f :: 0 <= f < |l2c| && f != frame ==> r[f] == l2c[f])
      && (forall l :: l in r[frame] <==> l in l2c[frame] || l in labels)
      && (forall l :: l in l2c[frame] ==> r[frame][l] == l2c[frame][l])
      && (forall l :: l in r[frame] && l !in l2c[frame] ==> r[frame][l] == 0)
      && (forall i :: 0 <= i < |labels| ==> labels[i] in r[frame] && r[frame][labels[i]] == 0)
    decreases |labels|
  {
    if labels != [] {
      MarkLabelsAddsZeros(l2c, frame, labels[..|labels| - 1]);
    }
  }

  /** One label is in the marked frame exactly when it was there before or is one of the given labels. */
  lemma {:induction false} MarkLabelsKey(l2c: seq<map<int, int>>, frame: nat, labels: seq<int>, l: int)
    requires frame < |l2c| && MarkLabels(l2c, frame, labels).Success?
    ensures l in MarkLabels(l2c, frame, labels).value[frame] <==> l in l2c[frame] || l in labels
    decreases |labels|
  {
    if labels != [] {
      var n := |labels| - 1;
      MarkLabelsKey(l2c, frame, labels[..n], l);
      assert labels == labels[..n] + [labels[n]];
    }
  }

  /** The assertion of `for l in fl_at` fails at label `i`: it is coloured already, or it came earlier in the list. */
  predicate LabelClash(m: map<int, int>, labels: seq<int>, i: int)
    requires 0 <= i < |labels|
  {
    labels[i] in m || labels[i] in labels[..i]
  }

  /** Marking one frame fails exactly when some label clashes, and then at the first one. */
  lemma {:induction false} MarkLabelsFailure(l2c: seq<map<int, int>>, frame: nat, labels: seq<int>)
    requires frame < |l2c|
    ensures MarkLabels(l2c, frame, labels).Failure? <==> exists i :: 0 <= i < |labels| && LabelClash(l2c[frame], labels, i)
    ensures MarkLabels(l2c, frame, labels).Failure? ==>
      exists i :: 0 <= i < |labels| && LabelClash(l2c[frame], labels, i)
        && (forall j :: 0 <= j < i ==> !LabelClash(l2c[frame], labels, j))
        && MarkLabels(l2c, frame, labels).error == AlreadyColoured(frame, labels[i])
    decreases |labels|
  {
    if labels != [] {
      var n := |labels| - 1;
      var p := labels[..n];
      MarkLabelsFailure(l2c, frame, p);
      forall i | 0 <= i < n
        ensures LabelClash(l2c[frame], p, i) <==> LabelClash(l2c[frame], labels, i)
      {
        assert p[..i] == labels[..i];
      }
      if MarkLabels(l2c, frame, p).Success? {
        var r := MarkLabels(l2c, frame, p).value;
        assert labels[..n] == p;
        MarkLabelsKey(l2c, frame, p, labels[n]);
        assert MarkLabels(l2c, frame, labels).Failure? <==> labels[n] in r[frame];
        assert LabelClash(l2c[frame], labels, n) <==> labels[n] in r[frame];
        if MarkLabels(l2c, frame, labels).Failure? {
          assert LabelClash(l2c[frame], labels, n);
        }
      }
    }
  }

  /** Entry key `key` refers to frame `f` of `n` maps: it is not beyond the list, and `f` is its Python index. */
  predicate Refers(n: nat, key: int, tmin: int, f: nat) {
    key + tmin < n && PyIndex(n, key + tmin) == Some(f)
  }

  /** The marking of one entry stops at its label `i`: the frame index is out of range, or the label clashes. */
  predicate EntryStopsAt(m: seq<map<int, int>>, key: int, labels: seq<int>, tmin: int, i: int)
    requires 0 <= i < |labels|
  {
    key + tmin < |m| &&
    match PyIndex(|m|, key + tmin)
    case None => true
    case Some(f) => LabelClash(m[f], labels, i)
  }

  /** What the source raises when the marking of an entry stops at label `i`. */
  function EntryError(n: nat, key: int, labels: seq<int>, tmin: int, i: int): TrackingError
    requires 0 <= i < |labels|
  {
    match PyIndex(n, key + tmin)
    case None => FilteredFrameOutOfRange(key)
    case Some(f) => AlreadyColoured(f, labels[i])
  }

  /**
   * One filtered entry: beyond the list it changes nothing; otherwise it adds
   * exactly its labels, with colour 0, to the frame it refers to.
   */
  lemma MarkEntryAddsZeros(m: seq<map<int, int>>, key: int, labels: seq<int>, tmin: int)
    requires MarkEntry(m, key, labels, tmin).Success?
    ensures var r := MarkEntry(m, key, labels, tmin).value;
      && (key + tmin >= |m| ==> r == m)
      && (forall g :: 0 <= g < |m| && !Refers(|m|, key, tmin, g) ==> r[g] == m[g])
      && (forall g, l :: 0 <= g < |m| && Refers(|m|, key, tmin, g) ==> (l in r[g] <==> l in m[g] || l in labels))
      && (forall g, l :: 0 <= g < |m| && l in m[g] ==> l in r[g] && r[g][l] == m[g][l])
      && (forall g, l :: 0 <= g < |m| && l in r[g] && l !in m[g] ==> r[g][l] == 0)
      && (forall g, i :: 0 <= g < |m| && Refers(|m|, key, tmin, g) && 0 <= i < |labels| ==> labels[i] in r[g] && r[g][labels[i]] == 0)
  {
    var f := key + tmin;
    if f < |m| && PyIndex(|m|, f).Some? {
      MarkLabelsAddsZeros(m, PyIndex(|m|, f).value, labels);
    }
  }

  /** One filtered entry fails exactly when its marking stops at some label, and then at the first one. */
  lemma MarkEntryFailure(m: seq<map<int, int>>, key: int, labels: seq<int>, tmin: int)
    ensures MarkEntry(m, key, labels, tmin).Failure? <==> exists i :: 0 <= i < |labels| && EntryStopsAt(m, key, labels, tmin, i)
    ensures MarkEntry(m, key, labels, tmin).Failure? ==>
      exists i :: 0 <= i < |labels| && EntryStopsAt(m, key, labels, tmin, i)
        && (forall j :: 0 <= j < i ==> !EntryStopsAt(m, key, labels, tmin, j))
        && MarkEntry(m, key, labels, tmin).error == EntryError(|m|, key, labels, tmin, i)
  {
    var f := key + tmin;
    if f < |m| {
      match PyIndex(|m|, f)
      case None =>
        if labels != [] {
          assert EntryStopsAt(m, key, labels, tmin, 0);
        }
      case Some(frame) =>
        assert MarkEntry(m, key, labels, tmin) == MarkLabels(m, frame, labels);
        MarkLabelsFailure(m, frame, labels);
        forall i | 0 <= i < |labels|
          ensures EntryStopsAt(m, key, labels, tmin, i) <==> LabelClash(m[frame], labels, i)
          ensures EntryError(|m|, key, labels, tmin, i) == AlreadyColoured(frame, labels[i])
        {
        }
    }
  }

  /** Some entry of `filtered` gives label `l` for frame `f`. */
  ghost predicate GivenFor(n: nat, filtered: seq<(int, seq<int>)>, tmin: int, f: nat, l: int) {
    exists e, i :: 0 <= e < |filtered| && 0 <= i < |filtered[e].1| && Refers(n, filtered[e].0, tmin, f) && filtered[e].1[i] == l
  }

  /** The labels given for a frame by a list of entries are those of its prefix plus those of its last entry. */
  lemma GivenForSnoc(n: nat, filtered: seq<(int, seq<int>)>, tmin: int, f: nat, l: int)
    requires filtered != []
    ensures var k := |filtered| - 1;
      GivenFor(n, filtered, tmin, f, l) <==>
        GivenFor(n, filtered[..k], tmin, f, l) || (Refers(n, filtered[k].0, tmin, f) && l in filtered[k].1)
  {
    var k := |filtered| - 1;
    if GivenFor(n, filtered, tmin, f, l) {
      var e, i :| 0 <= e < |filtered| && 0 <= i < |filtered[e].1| && Refers(n, filtered[e].0, tmin, f) && filtered[e].1[i] == l;
      if e < k {
        assert filtered[..k][e] == filtered[e];
      }
    }
    if GivenFor(n, filtered[..k], tmin, f, l) {
      var e, i :| 0 <= e < k && 0 <= i < |filtered[..k][e].1| && Refers(n, filtered[..k][e].0, tmin, f) && filtered[..k][e].1[i] == l;
      assert filtered[..k][e] == filtered[e];
    }
    if Refers(n, filtered[k].0, tmin, f) && l in filtered[k].1 {
      var i :| 0 <= i < |filtered[k].1| && filtered[k].1[i] == l;
      assert 0 <= k < |filtered|;
    }
  }

  /** The facts marking establishes about its result `r` of `l2c`, for the filtered entries `filtered`. */
  ghost predicate MarkedFrom(l2c: seq<map<int, int>>, r: seq<map<int, int>>, filtered: seq<(int, seq<int>)>, tmin: int)
    requires |r| == |l2c|
  {
    && (forall f, l :: 0 <= f < |l2c| && l in l2c[f] ==> l in r[f] && r[f][l] == l2c[f][l])
    // a frame gains exactly the labels the entries referring to it give, each with colour 0
    && (forall f, l :: 0 <= f < |l2c| ==> (l in r[f] <==> l in l2c[f] || GivenFor(|l2c|, filtered, tmin, f, l)))
    && (forall f, l :: 0 <= f < |l2c| && l in r[f] && l !in l2c[f] ==> r[f][l] == 0)
    && (forall e, i, f :: 0 <= e < |filtered| && 0 <= i < |filtered[e].1| && 0 <= f < |l2c| && Refers(|l2c|, filtered[e].0, tmin, f) ==>
          filtered[e].1[i] in r[f] && r[f][filtered[e].1[i]] == 0)
  }

  /** Marking keeps every colour and adds, with colour 0, exactly the labels each frame's entries give. */
  lemma {:induction false} MarkAddsZeros(l2c: seq<map<int, int>>, filtered: seq<(int, seq<int>)>, tmin: int)
    requires Mark(l2c, filtered, tmin).Success?
    ensures MarkedFrom(l2c, Mark(l2c, filtered, tmin).value, filtered, tmin)
    decreases |filtered|
  {
    if filtered != [] {
      var n := |filtered| - 1;
      var p := filtered[..n];
      MarkAddsZeros(l2c, p, tmin);
      var m := Mark(l2c, p, tmin).value;
      var entry := filtered[n];
      var r := Mark(l2c, filtered, tmin).value;
      assert r == MarkEntry(m, entry.0, entry.1, tmin).value;
      MarkEntryAddsZeros(m, entry.0, entry.1, tmin);
      forall f, l | 0 <= f < |l2c|
        ensures l in r[f] <==> l in l2c[f] || GivenFor(|l2c|, filtered, tmin, f, l)
      {
        GivenForSnoc(|l2c|, filtered, tmin, f, l);
      }
      forall e, i, f | 0 <= e < |filtered| && 0 <= i < |filtered[e].1| && 0 <= f < |l2c| && Refers(|l2c|, filtered[e].0, tmin, f)
        ensures filtered[e].1[i] in r[f] && r[f][filtered[e].1[i]] == 0
      {
        var l := filtered[e].1[i];
        if e < n {
          assert filtered[e] == p[e];
          assert l in m[f] && m[f][l] == 0;
          assert l in r[f] && r[f][l] == m[f][l];
        }
      }
    }
  }

  /**
   * Marking stops at label `i` of entry `e`: its frame index is out of range,
   * or the label is coloured already or was marked before.
   */
  ghost predicate StopsAt(l2c: seq<map<int, int>>, filtered: seq<(int, seq<int>)>, tmin: int, e: int, i: int)
    requires 0 <= e < |filtered| && 0 <= i < |filtered[e].1|
  {
    var key := filtered[e].0;
    var labels := filtered[e].1;
    key + tmin < |l2c| &&
    match PyIndex(|l2c|, key + tmin)
    case None => true
    case Some(f) => labels[i] in l2c[f] || labels[i] in labels[..i] || GivenFor(|l2c|, filtered[..e], tmin, f, labels[i])
  }

  /** The first place, in the order the source marks, where marking stops. */
  ghost predicate FirstStop(l2c: seq<map<int, int>>, filtered: seq<(int, seq<int>)>, tmin: int, e: int, i: int) {
    && 0 <= e < |filtered| && 0 <= i < |filtered[e].1|
    && StopsAt(l2c, filtered, tmin, e, i)
    && (forall e0, i0 :: 0 <= e0 < e && 0 <= i0 < |filtered[e0].1| ==> !StopsAt(l2c, filtered, tmin, e0, i0))
    && (forall i0 :: 0 <= i0 < i ==> !StopsAt(l2c, filtered, tmin, e, i0))
  }

  /** Where marking stops does not depend on the entries after it. */
  lemma StopsAtPrefix(l2c: seq<map<int, int>>, filtered: seq<(int, seq<int>)>, tmin: int, k: nat)
    requires k <= |filtered|
    ensures forall e, i :: 0 <= e < k && 0 <= i < |filtered[e].1| ==>
      (StopsAt(l2c, filtered[..k], tmin, e, i) <==> StopsAt(l2c, filtered, tmin, e, i))
  {
    forall e, i | 0 <= e < k && 0 <= i < |filtered[e].1|
      ensures StopsAt(l2c, filtered[..k], tmin, e, i) <==> StopsAt(l2c, filtered, tmin, e, i)
    {
      assert filtered[..k][e] == filtered[e];
      assert filtered[..k][..e] == filtered[..e];
    }
  }

  /**
   * Marking fails exactly when it stops somewhere, and then with the error of
   * the first place it stops: the IndexError of an out-of-range frame, or the
   * assertion that a filtered id is not coloured yet.
   */
  lemma {:induction false} MarkFailure(l2c: seq<map<int, int>>, filtered: seq<(int, seq<int>)>, tmin: int)
    ensures Mark(l2c, filtered, tmin).Failure? <==>
      exists e, i :: 0 <= e < |filtered| && 0 <= i < |filtered[e].1| && StopsAt(l2c, filtered, tmin, e, i)
    ensures Mark(l2c, filtered, tmin).Failure? ==>
      exists e, i :: FirstStop(l2c, filtered, tmin, e, i)
        && Mark(l2c, filtered, tmin).error == EntryError(|l2c|, filtered[e].0, filtered[e].1, tmin, i)
    decreases |filtered|
  {
    if filtered != [] {
      var n := |filtered| - 1;
      var p := filtered[..n];
      MarkFailure(l2c, p, tmin);
      StopsAtPrefix(l2c, filtered, tmin, n);
      if Mark(l2c, p, tmin).Failure? {
        var e, i :| FirstStop(l2c, p, tmin, e, i) && Mark(l2c, p, tmin).error == EntryError(|l2c|, p[e].0, p[e].1, tmin, i);
        assert p[e] == filtered[e];
        assert FirstStop(l2c, filtered, tmin, e, i);
      } else {
        var m := Mark(l2c, p, tmin).value;
        var key := filtered[n].0;
        var labels := filtered[n].1;
        MarkAddsZeros(l2c, p, tmin);
        assert MarkedFrom(l2c, m, p, tmin);
        MarkEntryFailure(m, key, labels, tmin);
        forall i | 0 <= i < |labels|
          ensures EntryStopsAt(m, key, labels, tmin, i) <==> StopsAt(l2c, filtered, tmin, n, i)
        {
          if key + tmin < |l2c| && PyIndex(|l2c|, key + tmin).Some? {
            var f := PyIndex(|l2c|, key + tmin).value;
            var l := labels[i];
            assert l in m[f] ==> l in l2c[f] || GivenFor(|l2c|, p, tmin, f, l);
            assert l in l2c[f] || GivenFor(|l2c|, p, tmin, f, l) ==> l in m[f];
          }
        }
        if Mark(l2c, filtered, tmin).Failure? {
          var i :| 0 <= i < |labels| && EntryStopsAt(m, key, labels, tmin, i)
            && (forall j :: 0 <= j < i ==> !EntryStopsAt(m, key, labels, tmin, j))
            && MarkEntry(m, key, labels, tmin).error == EntryError(|m|, key, labels, tmin, i);
          assert FirstStop(l2c, filtered, tmin, n, i);
        }
      }
    }
  }

  /**
   * After `_setLabel2Color`, every colour lies below the final fresh id, every
   * filtered id of a stored frame has colour 0, and colour 0 marks only them.
   */
  lemma Label2ColorColours(events: map<string, FrameEvents>, tmin: int, tmax: int, filtered: seq<(int, seq<int>)>)
    requires Label2Color(events, Some((tmin, tmax)), filtered).Success?
    ensures var c := Label2Color(events, Some((tmin, tmax)), filtered).value;
      && c.next >= 1
      && (forall f, l :: 0 <= f < |c.l2c| && l in c.l2c[f] ==> 0 <= c.l2c[f][l] < c.next)
      && (forall e, i, f :: 0 <= e < |filtered| && 0 <= i < |filtered[e].1| && 0 <= f < |c.l2c| && Refers(|c.l2c|, filtered[e].0, tmin, f) ==>
            filtered[e].1[i] in c.l2c[f] && c.l2c[f][filtered[e].1[i]] == 0)
      && (forall f, l :: 0 <= f < |c.l2c| && l in c.l2c[f] && c.l2c[f][l] == 0 ==> GivenFor(|c.l2c|, filtered, tmin, f, l))
  {
    var c0 := Initial(tmin);
    var n: nat := tmax - tmin;
    var s := Frames(c0, events, n).value;
    var r := Mark(s.l2c, filtered, tmin).value;
    assert Label2Color(events, Some((tmin, tmax)), filtered).value == s.(l2c := r);
    FramesBounded(c0, events, n);
    MarkAddsZeros(s.l2c, filtered, tmin);
    assert MarkedFrom(s.l2c, r, filtered, tmin);
    forall f, l | 0 <= f < |r| && l in r[f]
      ensures 0 <= r[f][l] < s.next
      ensures r[f][l] == 0 ==> GivenFor(|r|, filtered, tmin, f, l)
    {
      if l in s.l2c[f] {
        assert r[f][l] == s.l2c[f][l];
      }
    }
  }
}
