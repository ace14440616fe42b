/**
 * The distance filter: picks one marker observation per frame and smooths
 * the raw camera-to-marker distance through a three-slot median window and
 * an exponential moving average. Marker detection and pose recovery are
 * external: a frame arrives as its list of observations, each carrying the
 * id, the image-space perimeter and the outcome of pose recovery for it.
 */
module Distance {
  import opened Common

  /** Capacity of the median window (`deque(maxlen=3)`). */
  const WINDOW: nat := 3

  /** The intrinsics used when none are given: fx = fy = 800, cx = 320, cy = 240. */
  const DEFAULT_CAMERA: seq<seq<real>> := [[800.0, 0.0, 320.0], [0.0, 800.0, 240.0], [0.0, 0.0, 1.0]]

  /** Zero distortion, five coefficients. */
  const DEFAULT_DISTORTION: seq<real> := [0.0, 0.0, 0.0, 0.0, 0.0]

  /** A distance in metres; a vector norm is never negative. */
  type Metres = x: real | x >= 0.0

  /** Outcome of pose recovery for one marker: the norm of its translation, or a failure. */
  datatype Pose = Pose(rawDistance: Metres) | PoseError

  /** One detected marker. */
  datatype Marker = Marker(id: int, perimeter: real, pose: Pose)

  /** A camera frame as the filter sees it: absent, or an image with its detections. */
  datatype Frame = NoFrame | Image(size: nat, markers: seq<Marker>)

  // ---------------------------------------------------------------------------
  // The median window

  /** The last `n` elements of `s`, or all of them when there are fewer. */
  function Last(s: seq<real>, n: nat): (r: seq<real>)
  {
    if |s| <= n then s else s[|s| - n..]
  }

  /** Append to a window that keeps at most WINDOW values, dropping the oldest. */
  function Push(window: seq<real>, x: real): (w: seq<real>)
    ensures |w| == if |window| < WINDOW then |window| + 1 else WINDOW
    ensures w[|w| - 1] == x
    ensures |window| <= WINDOW ==> w == (if |window| < WINDOW then window else window[1..]) + [x]
  {
    Last(window + [x], WINDOW)
  }

  /** Push every value of `xs`, oldest first. */
  function PushAll(window: seq<real>, xs: seq<real>): seq<real>
    decreases |xs|
  {
    if xs == [] then window else PushAll(Push(window, xs[0]), xs[1..])
  }

  /** However many values are pushed, the window holds the last (at most) three of them, in order. */
  lemma {:induction false} PushAllKeepsLastThree(window: seq<real>, xs: seq<real>)
    requires |window| <= WINDOW
    ensures PushAll(window, xs) == Last(window + xs, WINDOW)
    decreases |xs|
  {
    if xs != [] {
      var w1 := Push(window, xs[0]);
      PushAllKeepsLastThree(w1, xs[1..]);
      LastOfLast(window + [xs[0]], xs[1..]);
      assert (window + [xs[0]]) + xs[1..] == window + xs;
    }
  }

  /** Taking the last three before appending more changes nothing once the last three are taken again. */
  lemma LastOfLast(s: seq<real>, t: seq<real>)
    ensures Last(Last(s, WINDOW) + t, WINDOW) == Last(s + t, WINDOW)
  {
    var u := Last(s, WINDOW);
    assert u == s[|s| - |u|..];
    var a, b := u + t, s + t;
    assert forall i :: 0 <= i < |a| ==> a[i] == b[|b| - |a| + i];
    if |b| <= WINDOW {
      assert a == b;
    } else {
      assert Last(a, WINDOW) == a[|a| - WINDOW..];
      assert Last(b, WINDOW) == b[|b| - WINDOW..];
    }
  }

  /** `m` is a median of three values: one of them, with at least two values at most `m` and two at least `m`. */
  predicate IsMedianOfThree(a: real, b: real, c: real, m: real) {
    && (m == a || m == b || m == c)
    && ((a <= m && b <= m) || (a <= m && c <= m) || (b <= m && c <= m))
    && ((m <= a && m <= b) || (m <= a && m <= c) || (m <= b && m <= c))
  }

  /** `np.median` of a window of one to three values. */
  function Median(w: seq<real>): (m: real)
    requires 1 <= |w| <= WINDOW
    ensures |w| == 1 ==> m == w[0]
    ensures |w| == 2 ==> m == (w[0] + w[1]) / 2.0
    ensures |w| == 3 ==> IsMedianOfThree(w[0], w[1], w[2], m)
  {
    if |w| == 1 then w[0]
    else if |w| == 2 then (w[0] + w[1]) / 2.0
    else
      var a, b, c := w[0], w[1], w[2];
      if (a <= b <= c) || (c <= b <= a) then b
      else if (b <= a <= c) || (c <= a <= b) then a
      else c
  }

  /** A window of three in which two values agree has that value as its median: one spike is rejected. */
  lemma MedianRejectsOneOutlier(w: seq<real>, c: real)
    requires |w| == 3
    requires (w[0] == c && w[1] == c) || (w[0] == c && w[2] == c) || (w[1] == c && w[2] == c)
    ensures Median(w) == c
  {
  }

  /** The spike example: 1.0, 1.0, 5.0 has median 1.0. */
  lemma SpikeExample()
    ensures Median([1.0, 1.0, 5.0]) == 1.0
  {
    MedianRejectsOneOutlier([1.0, 1.0, 5.0], 1.0);
  }

  // ---------------------------------------------------------------------------
  // The exponential moving average

  /** The smoothing state and the distance one accepted sample produces. */
  datatype Smoothed = Smoothed(ema: Option<real>, distance: real)

  /** The EMA mix of a previous value `p` and a median `m` lies between the two. */
  lemma MixBetween(alpha: real, p: real, m: real)
    requires 0.0 < alpha <= 1.0
    ensures Between(p, m, alpha * m + (1.0 - alpha) * p)
  {
    var d := m - p;
    var e := alpha * m + (1.0 - alpha) * p;
    assert (1.0 - alpha) * p == p - alpha * p;
    assert alpha * d == alpha * m - alpha * p;
    assert e == p + alpha * d;
    assert d - alpha * d == (1.0 - alpha) * d;
    if d >= 0.0 {
      assert alpha * d >= 0.0;
      assert (1.0 - alpha) * d >= 0.0;
    } else {
      assert alpha * d <= 0.0;
      assert (1.0 - alpha) * d <= 0.0;
    }
  }

  /** The EMA stage applied to median `m`. */
  function Smooth(alpha: real, ema: Option<real>, m: real): (r: Smoothed)
    ensures alpha <= 0.0 ==> r == Smoothed(ema, m)
    ensures alpha > 0.0 ==> r.ema == Some(r.distance)
    ensures alpha > 0.0 && ema.None? ==> r.distance == m
    ensures 0.0 < alpha <= 1.0 && ema.Some? ==> Between(ema.value, m, r.distance)
    ensures alpha == 1.0 ==> r.distance == m
    ensures alpha > 0.0 && ema == Some(m) ==> r.distance == m
  {
    if alpha > 0.0 then
      var e := if ema.None? then m else alpha * m + (1.0 - alpha) * ema.value;
      assert ema.Some? && alpha <= 1.0 ==> Between(ema.value, m, e) by {
        if ema.Some? && alpha <= 1.0 {
          MixBetween(alpha, ema.value, m);
        }
      }
      Smoothed(Some(e), e)
    else Smoothed(ema, m)
  }

  /** The filter's state: the median window and the EMA. */
  datatype Filter = Filter(recent: seq<real>, ema: Option<real>)

  /** The state after a reset. */
  const RESET := Filter([], None)

  /** The new state and the returned distance after accepting one raw distance. */
  datatype Update = Update(filter: Filter, distance: real)

  /** One accepted raw distance: push it, take the median, smooth. */
  function Feed(f: Filter, alpha: real, raw: real): (u: Update)
    ensures u.filter.recent == Push(f.recent, raw)
    ensures alpha > 0.0 ==> u.filter.ema == Some(u.distance)
    ensures alpha <= 0.0 ==> u.filter.ema == f.ema && u.distance == Median(u.filter.recent)
    ensures alpha > 0.0 && f == RESET ==> u.distance == raw
    ensures 0.0 < alpha <= 1.0 && f.ema.Some? ==> Between(f.ema.value, Median(u.filter.recent), u.distance)
  {
    var recent := Push(f.recent, raw);
    var s := Smooth(alpha, f.ema, Median(recent));
    Update(Filter(recent, s.ema), s.distance)
  }

  /** Every value the filter holds is non-negative. */
  predicate NonNegativeFilter(f: Filter) {
    && (forall i :: 0 <= i < |f.recent| ==> f.recent[i] >= 0.0)
    && (f.ema.None? || f.ema.value >= 0.0)
  }

  /** Non-negative raw distances keep the window and the EMA non-negative, and so the returned distance. */
  lemma FeedKeepsNonNegative(f: Filter, alpha: real, raw: real)
    requires |f.recent| <= WINDOW && NonNegativeFilter(f)
    requires 0.0 <= alpha <= 1.0 && raw >= 0.0
    ensures NonNegativeFilter(Feed(f, alpha, raw).filter)
    ensures Feed(f, alpha, raw).distance >= 0.0
  {
    var w := Push(f.recent, raw);
    forall i | 0 <= i < |w| ensures w[i] >= 0.0 {
      if i < |w| - 1 {
        if |f.recent| < WINDOW {
          assert w[i] == f.recent[i];
        } else {
          assert w[i] == f.recent[i + 1];
        }
      }
    }
    var m := Median(w);
    assert m >= 0.0 by {
      if |w| == 3 {
        assert m == w[0] || m == w[1] || m == w[2];
      }
    }
  }

  /** The distances returned for a run of accepted raw distances, and the final state. */
  function FeedAll(f: Filter, alpha: real, raws: seq<real>): (Filter, seq<real>)
    decreases |raws|
  {
    if raws == [] then (f, [])
    else
      var u := Feed(f, alpha, raws[0]);
      var rest := FeedAll(u.filter, alpha, raws[1..]);
      (rest.0, [u.distance] + rest.1)
  }

  /** Every value in `s` is `c`. */
  predicate AllEqual(s: seq<real>, c: real) {
    forall i :: 0 <= i < |s| ==> s[i] == c
  }

  /** A filter that has only ever seen `c` since its last reset. */
  predicate SettledOn(f: Filter, c: real) {
    |f.recent| <= WINDOW && AllEqual(f.recent, c) && (f.ema.None? || f.ema == Some(c))
  }

  /** Pushing `c` onto a window of `c`s leaves a window of `c`s. */
  lemma PushKeepsAllEqual(w: seq<real>, c: real)
    requires |w| <= WINDOW
    requires AllEqual(w, c)
    ensures AllEqual(Push(w, c), c)
  {
    var r := Push(w, c);
    forall i | 0 <= i < |r| ensures r[i] == c {
      if i < |r| - 1 && |w| == WINDOW {
        assert r[i] == w[i + 1];
      }
    }
  }

  /** One constant sample on a filter settled on it returns it exactly and keeps the filter settled. */
  lemma FeedSettled(f: Filter, alpha: real, c: real)
    requires alpha > 0.0
    requires SettledOn(f, c)
    ensures Feed(f, alpha, c).distance == c
    ensures SettledOn(Feed(f, alpha, c).filter, c)
  {
    var recent := Push(f.recent, c);
    PushKeepsAllEqual(f.recent, c);
    var m := Median(recent);
    assert m == c by {
      if |recent| == 2 {
        assert recent[0] == c && recent[1] == c;
      } else if |recent| == 3 {
        MedianRejectsOneOutlier(recent, c);
      }
    }
    var sm := Smooth(alpha, f.ema, m);
    assert sm.distance == c && sm.ema == Some(c);
    assert Feed(f, alpha, c) == Update(Filter(recent, sm.ema), sm.distance);
  }

  /** A constant input keeps a settled filter settled and returns exactly that constant. */
  lemma {:induction false} ConstantInputStaysExact(f: Filter, alpha: real, raws: seq<real>, c: real)
    requires alpha > 0.0
    requires SettledOn(f, c)
    requires AllEqual(raws, c)
    ensures var (g, out) := FeedAll(f, alpha, raws); SettledOn(g, c) && AllEqual(out, c) && |out| == |raws|
    decreases |raws|
  {
    if raws != [] {
      assert raws[0] == c;
      FeedSettled(f, alpha, c);
      var u := Feed(f, alpha, c);
      var tail := raws[1..];
      assert AllEqual(tail, c) by {
        forall i | 0 <= i < |tail| ensures tail[i] == c {
          assert tail[i] == raws[i + 1];
        }
      }
      ConstantInputStaysExact(u.filter, alpha, tail, c);
      var rest := FeedAll(u.filter, alpha, tail);
      var out := [u.distance] + rest.1;
      assert FeedAll(f, alpha, raws) == (rest.0, out);
      assert AllEqual(out, c) by {
        forall i | 0 <= i < |out| ensures out[i] == c {
          if i > 0 { assert out[i] == rest.1[i - 1]; }
        }
      }
    }
  }

  /** From a reset with smoothing on, a constant raw distance comes back exactly on every call. */
  lemma ConstantFromReset(alpha: real, raws: seq<real>, c: real)
    requires alpha > 0.0
    requires AllEqual(raws, c)
    ensures var (g, out) := FeedAll(RESET, alpha, raws); AllEqual(out, c) && |out| == |raws|
  {
    ConstantInputStaysExact(RESET, alpha, raws, c);
  }

  /** From any reachable window, three equal raw distances in a row leave a window whose median is that value. */
  lemma ThreeInARowFillWindow(window: seq<real>, c: real)
    requires |window| <= WINDOW
    ensures PushAll(window, [c, c, c]) == [c, c, c]
    ensures Median(PushAll(window, [c, c, c])) == c
  {
    PushAllKeepsLastThree(window, [c, c, c]);
    var s := window + [c, c, c];
    assert s[|s| - WINDOW..] == [c, c, c];
  }

  // ---------------------------------------------------------------------------
  // Marker selection

  /** Some marker carries `id`. */
  predicate HasId(ms: seq<Marker>, id: int) {
    exists j :: 0 <= j < |ms| && ms[j].id == id
  }

  /** `i` is the first index whose marker carries `id`. */
  predicate IsFirstWithId(ms: seq<Marker>, id: int, i: nat) {
    i < |ms| && ms[i].id == id && forall j :: 0 <= j < i ==> ms[j].id != id
  }

  /** `i` is the first index of largest perimeter (what `np.argmax` returns). */
  predicate IsFirstLargest(ms: seq<Marker>, i: nat) {
    && i < |ms|
    && (forall j :: 0 <= j < |ms| ==> ms[j].perimeter <= ms[i].perimeter)
    && (forall j :: 0 <= j < i ==> ms[j].perimeter < ms[i].perimeter)
  }

  /** The first index carrying `id`, if any. */
  function FirstWithId(ms: seq<Marker>, id: int): (r: Option<nat>)
    ensures r.Some? ==> IsFirstWithId(ms, id, r.value)
    ensures r.None? ==> !HasId(ms, id)
  {
    if ms == [] then None
    else if ms[0].id == id then Some(0)
    else
      match FirstWithId(ms[1..], id)
      case None =>
        assert forall j :: 1 <= j < |ms| ==> ms[j] == ms[1..][j - 1];
        None
      case Some(i) =>
        assert forall j :: 1 <= j <= i ==> ms[j] == ms[1..][j - 1];
        Some(i + 1)
  }

  /** The first index of largest perimeter of a non-empty list. */
  function FirstLargest(ms: seq<Marker>): (r: nat)
    requires |ms| > 0
    ensures IsFirstLargest(ms, r)
  {
    if |ms| == 1 then 0
    else
      var init := ms[..|ms| - 1];
      var i := FirstLargest(init);
      assert forall j :: 0 <= j < |init| ==> init[j] == ms[j];
      if ms[|ms| - 1].perimeter > ms[i].perimeter then |ms| - 1 else i
  }

  /** The marker the filter tracks: the first with the target id, else the first largest. */
  function SelectIndex(ms: seq<Marker>, targetId: Option<int>): (r: Option<nat>)
    ensures r.None? <==> ms == []
    ensures targetId.Some? && HasId(ms, targetId.value) ==>
      r.Some? && IsFirstWithId(ms, targetId.value, r.value)
    ensures (targetId.None? || !HasId(ms, targetId.value)) && ms != [] ==>
      r.Some? && IsFirstLargest(ms, r.value)
  {
    var hit := if targetId.Some? then FirstWithId(ms, targetId.value) else None;
    if hit.Some? then hit
    else if ms == [] then None
    else Some(FirstLargest(ms))
  }

  /** The raw distance a frame yields, or None when it yields nothing. */
  function RawDistance(frame: Frame, targetId: Option<int>): (raw: Option<real>)
    ensures frame.NoFrame? || frame.size == 0 || frame.markers == [] ==> raw.None?
    ensures raw.Some? ==> raw.value >= 0.0
    ensures frame.Image? && frame.size > 0 && frame.markers != [] ==>
      var i := SelectIndex(frame.markers, targetId).value;
      raw == if frame.markers[i].pose.Pose? then Some(frame.markers[i].pose.rawDistance) else None
  {
    if frame.NoFrame? || frame.size == 0 || frame.markers == [] then None
    else
      var i := SelectIndex(frame.markers, targetId).value;
      match frame.markers[i].pose
      case Pose(d) => Some(d)
      case PoseError => None
  }

  // ---------------------------------------------------------------------------
  // The estimator object

  class DistanceEstimator {
    var markerSize: real
    var cameraMatrix: seq<seq<real>>
    var distCoeffs: seq<real>
    var targetId: Option<int>
    var alpha: real
    var ema: Option<real>
    var recent: seq<real>

    /** The object invariant: the smoothing factor is a fraction, the window holds at most three values. */
    ghost predicate Valid()
      reads this
    {
      0.0 <= alpha <= 1.0 && |recent| <= WINDOW && NonNegativeFilter(State())
    }

    /** The filter state as a value. */
    function State(): Filter
      reads this
    {
      Filter(recent, ema)
    }

    constructor (markerSize: real, cameraMatrix: Option<seq<seq<real>>>, distCoeffs: Option<seq<real>>,
                 targetId: Option<int>, smoothAlpha: real)
      ensures Valid()
      ensures this.markerSize == markerSize && this.targetId == targetId
      ensures this.cameraMatrix == if cameraMatrix.Some? then cameraMatrix.value else DEFAULT_CAMERA
      ensures this.distCoeffs == if distCoeffs.Some? then distCoeffs.value else DEFAULT_DISTORTION
      ensures alpha == Clamp(0.0, 1.0, smoothAlpha)
      ensures State() == RESET
    {
      this.markerSize := markerSize;
      this.targetId := targetId;
      this.cameraMatrix := if cameraMatrix.Some? then cameraMatrix.value else DEFAULT_CAMERA;
      this.distCoeffs := if distCoeffs.Some? then distCoeffs.value else DEFAULT_DISTORTION;
      alpha := if smoothAlpha < 0.0 then 0.0 else if smoothAlpha > 1.0 then 1.0 else smoothAlpha;
      ema := None;
      recent := [];
    }

    /** Forget the window and the EMA. */
    method ResetFilter()
      requires Valid()
      modifies this`recent, this`ema
      ensures Valid()
      ensures State() == RESET
    {
      ema := None;
      recent := [];
    }

    /** Change the physical marker size; the filter starts over. */
    method SetMarkerSize(meters: real)
      requires Valid()
      modifies this`markerSize, this`recent, this`ema
      ensures Valid()
      ensures markerSize == meters && State() == RESET
    {
      markerSize := meters;
      ResetFilter();
    }

    /** Change the intrinsics (and the distortion when given); the filter starts over. */
    method SetCameraIntrinsics(matrix: seq<seq<real>>, coeffs: Option<seq<real>>)
      requires Valid()
      modifies this`cameraMatrix, this`distCoeffs, this`recent, this`ema
      ensures Valid()
      ensures cameraMatrix == matrix
      ensures distCoeffs == if coeffs.Some? then coeffs.value else old(distCoeffs)
      ensures State() == RESET
    {
      cameraMatrix := matrix;
      if coeffs.Some? {
        distCoeffs := coeffs.value;
      }
      ResetFilter();
    }

    /** The marker to track among a frame's detections, scanned in one pass each. */
    method SelectMarkerIndex(ms: seq<Marker>) returns (idx: Option<nat>)
      ensures idx == SelectIndex(ms, targetId)
    {
      if targetId.Some? {
        var i := 0;
        while i < |ms|
          invariant 0 <= i <= |ms|
          invariant forall j :: 0 <= j < i ==> ms[j].id != targetId.value
        {
          if ms[i].id == targetId.value {
            return Some(i);
          }
          i := i + 1;
        }
      }
      if |ms| == 0 {
        return None;
      }
      var best := 0;
      var k := 1;
      while k < |ms|
        invariant 1 <= k <= |ms|
        invariant IsFirstLargest(ms[..k], best)
      {
        assert forall j :: 0 <= j < k ==> ms[..k + 1][j] == ms[..k][j];
        if ms[k].perimeter > ms[best].perimeter {
          best := k;
        }
        k := k + 1;
      }
      assert ms[..k] == ms;
      idx := Some(best);
    }

    /**
     * Process one frame. A frame that is missing or empty, that has no
     * detections, or whose selected marker's pose cannot be recovered
     * returns None and leaves the filter as it was; otherwise the raw
     * distance goes through the window and the EMA.
     */
    method EstimateDistance(frame: Frame) returns (distance: Option<real>)
      requires Valid()
      modifies this`recent, this`ema
      ensures Valid()
      ensures RawDistance(frame, targetId).None? ==> distance.None? && State() == old(State())
      ensures RawDistance(frame, targetId).Some? ==>
        var u := Feed(old(State()), alpha, RawDistance(frame, targetId).value);
        State() == u.filter && distance == Some(u.distance)
      ensures distance.Some? ==> distance.value >= 0.0
    {
      if frame.NoFrame? || frame.size == 0 {
        return None;
      }
      distance := None;
      if |frame.markers| > 0 {
        var idx := SelectMarkerIndex(frame.markers);
        if idx.Some? {
          match frame.markers[idx.value].pose
          case PoseError =>
            distance := None;
          case Pose(raw) =>
            assert RawDistance(frame, targetId) == Some(raw);
            ghost var before := State();
            recent := Push(recent, raw);
            var median := Median(recent);
            var smoothed := Smooth(alpha, ema, median);
            ema := smoothed.ema;
            distance := Some(smoothed.distance);
            assert Feed(before, alpha, raw) == Update(State(), distance.value);
            FeedKeepsNonNegative(before, alpha, raw);
        }
      }
    }
  }
}
