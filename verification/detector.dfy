/**
 * The accelerometer-driven orientation detector. Each sample is classified by
 * fixed thresholds on its x and y components (x first), samples in the dead
 * zone are ignored, and a change is reported only when the classified
 * orientation differs from the current one.
 */
module OrientationDetector {
  import opened Wrappers
  import opened Orientations

  /** Tilt, in units of g, at which an axis decides the orientation. */
  const Threshold: real := 0.75

  /** The orientation a newly created detector holds. */
  const Initial: Orientation := Unknown

  /** One accelerometer reading; the z component is never consulted. */
  datatype Sample = Sample(x: real, y: real)

  /** The notification handed to the delegate: old and new orientation. */
  datatype Change = Change(from: Orientation, to: Orientation)

  /** The detector's orientation after a step, and the notification it sent, if any. */
  datatype StepResult = StepResult(next: Orientation, change: Option<Change>)

  /** The detector's orientation after a run of samples, and every notification sent. */
  datatype Trace = Trace(final: Orientation, changes: seq<Change>)

  // ---------------------------------------------------------------------------
  // Classification

  /** The orientation a sample indicates, or None when it lies in the dead zone. */
  function Classify(s: Sample): (r: Option<Orientation>)
    ensures r != Some(Unknown)
    ensures forall o :: r == Some(o) <==> InRegion(o, s)
    ensures r == None <==> InDeadZone(s)
  {
    if s.x >= Threshold then Some(LandscapeLeft)
    else if s.x <= -Threshold then Some(LandscapeRight)
    else if s.y <= -Threshold then Some(Portrait)
    else if s.y >= Threshold then Some(PortraitUpsideDown)
    else None
  }

  /**
   * The region of sample space belonging to each orientation, stated without
   * reference to the order of the tests: a portrait region excludes every
   * sample whose x component alone is decisive.
   */
  predicate InRegion(o: Orientation, s: Sample) {
    match o
    case Unknown => false
    case LandscapeLeft => s.x >= Threshold
    case LandscapeRight => s.x <= -Threshold
    case Portrait => -Threshold < s.x < Threshold && s.y <= -Threshold
    case PortraitUpsideDown => -Threshold < s.x < Threshold && s.y >= Threshold
  }

  /** Samples too close to flat on both axes to decide anything. */
  predicate InDeadZone(s: Sample) {
    -Threshold < s.x < Threshold && -Threshold < s.y < Threshold
  }

  /** The regions and the dead zone partition the samples: every sample lies in exactly one of them. */
  lemma ClassifyMatchesRegions(s: Sample)
    ensures forall o, o' :: InRegion(o, s) && InRegion(o', s) ==> o == o'
    ensures InDeadZone(s) ==> forall o :: !InRegion(o, s)
    ensures InDeadZone(s) || exists o :: InRegion(o, s)
  {
    if !InDeadZone(s) {
      assert InRegion(Classify(s).value, s);
    }
  }

  /** The x axis decides whenever it is past the threshold, whatever y says. */
  lemma XAxisTakesPrecedence(x: real, y: real, y': real)
    requires x >= Threshold || x <= -Threshold
    ensures Classify(Sample(x, y)) == Classify(Sample(x, y'))
    ensures Classify(Sample(x, y)).Some? && IsLandscape(Classify(Sample(x, y)).value)
  {
  }

  /** Turning the device half a turn negates the sample and yields the opposite orientation. */
  lemma ClassifyPointSymmetric(s: Sample)
    ensures Classify(Sample(-s.x, -s.y)) == (if Classify(s).None? then None else Some(Opposite(Classify(s).value)))
  {
  }

  /** The sample read after the device is turned a quarter clockwise: gravity turns the other way. */
  function RotateClockwise(s: Sample): Sample {
    Sample(-s.y, s.x)
  }

  /** Samples where both axes are past the threshold, where the x-first order breaks symmetry. */
  predicate InCorner(s: Sample) {
    (s.x >= Threshold || s.x <= -Threshold) && (s.y >= Threshold || s.y <= -Threshold)
  }

  /**
   * Away from the corners, turning the device a quarter clockwise moves the
   * classification one step round Portrait, LandscapeLeft, PortraitUpsideDown,
   * LandscapeRight.
   */
  lemma ClassifyFollowsQuarterTurn(s: Sample)
    requires !InCorner(s)
    ensures !InCorner(RotateClockwise(s))
    ensures Classify(RotateClockwise(s)) == (if Classify(s).None? then None else Some(ClockwiseNext(Classify(s).value)))
  {
  }

  /** In a corner the quarter-turn symmetry fails: the x test wins on both sides of the turn. */
  lemma CornerBreaksQuarterTurn()
    ensures var s := Sample(0.8, 0.8);
      InCorner(s) && Classify(s) == Some(LandscapeLeft)
      && Classify(RotateClockwise(s)) == Some(LandscapeRight)
      && ClockwiseNext(LandscapeLeft) == PortraitUpsideDown
  {
  }

  // ---------------------------------------------------------------------------
  // Debounced step

  /** One accelerometer callback: classify, then report and adopt a new orientation only if it differs. */
  function Step(current: Orientation, s: Sample): (r: StepResult)
    ensures r.change.Some? <==> Classify(s).Some? && Classify(s).value != current
    ensures r.change.Some? ==> r.change.value == Change(current, r.next) && r.next != current
    ensures r.change.None? ==> r.next == current
    ensures Classify(s).Some? ==> r.next == Classify(s).value
    ensures InDeadZone(s) ==> r == StepResult(current, None)
  {
    match Classify(s)
    case None => StepResult(current, None)
    case Some(o) =>
      if o == current then StepResult(current, None)
      else StepResult(o, Some(Change(current, o)))
  }

  /** Feeding the same sample again right away changes nothing and reports nothing. */
  lemma StepIsIdempotent(current: Orientation, s: Sample)
    ensures Step(Step(current, s).next, s) == StepResult(Step(current, s).next, None)
  {
  }

  /** A step never goes back to Unknown once the detector has left it. */
  lemma StepNeverReturnsToUnknown(current: Orientation, s: Sample)
    requires current != Unknown
    ensures Step(current, s).next != Unknown
    ensures Step(current, s).change.Some? ==> Step(current, s).change.value.to != Unknown
  {
  }

  // ---------------------------------------------------------------------------
  // Runs of samples

  /**
   * The notifications of a run form a chain from `start` to `final`: the first
   * leaves `start`, each one leaves where the previous one arrived, none is a
   * self-loop, and the last arrives at `final`; with no notification the
   * orientation is unchanged.
   */
  ghost predicate IsChain(start: Orientation, changes: seq<Change>, final: Orientation) {
    if |changes| == 0 then final == start
    else
      && changes[0].from == start
      && changes[|changes| - 1].to == final
      && (forall i :: 0 <= i < |changes| ==> changes[i].from != changes[i].to)
      && (forall i :: 0 < i < |changes| ==> changes[i - 1].to == changes[i].from)
  }

  /** No notification of the run arrives at Unknown. */
  ghost predicate NeverToUnknown(changes: seq<Change>) {
    forall i :: 0 <= i < |changes| ==> changes[i].to != Unknown
  }

  /** One more step, with its notification if any, extends a chain to the step's orientation. */
  lemma ChainExtend(start: Orientation, changes: seq<Change>, mid: Orientation, st: StepResult)
    requires IsChain(start, changes, mid)
    requires st.change.None? ==> st.next == mid
    requires st.change.Some? ==> st.change.value == Change(mid, st.next) && st.next != mid
    ensures IsChain(start, changes + ToSeq(st.change), st.next)
  {
  }

  /** Feeding the samples in order, one step each, starting from `start`. */
  function Run(start: Orientation, samples: seq<Sample>): (r: Trace)
    ensures IsChain(start, r.changes, r.final)
    ensures |r.changes| <= |samples|
    ensures start != Unknown ==> r.final != Unknown
    ensures NeverToUnknown(r.changes)
    decreases |samples|
  {
    if |samples| == 0 then Trace(start, [])
    else
      var prev := Run(start, samples[..|samples| - 1]);
      var st := Step(prev.final, samples[|samples| - 1]);
      ChainExtend(start, prev.changes, prev.final, st);
      Trace(st.next, prev.changes + ToSeq(st.change))
  }

  /** Running one more sample is one more step after the run. */
  lemma RunSnoc(start: Orientation, samples: seq<Sample>, s: Sample)
    ensures Run(start, samples + [s]).final == Step(Run(start, samples).final, s).next
    ensures Run(start, samples + [s]).changes == Run(start, samples).changes + ToSeq(Step(Run(start, samples).final, s).change)
  {
  }

  /** A sample delivered twice in a row is reported at most once: the repeat is silent. */
  lemma RepeatedSampleIsSilent(start: Orientation, samples: seq<Sample>, s: Sample)
    ensures Run(start, samples + [s, s]) == Run(start, samples + [s])
  {
    assert samples + [s, s] == (samples + [s]) + [s];
    RunSnoc(start, samples, s);
    RunSnoc(start, samples + [s], s);
    StepIsIdempotent(Run(start, samples).final, s);
  }

  /**
   * A fresh detector stays silent, and stays Unknown, exactly as long as every
   * sample it has seen lies in the dead zone.
   */
  lemma {:induction false} FreshDetectorSilentUntilDecisive(samples: seq<Sample>)
    ensures Run(Initial, samples).changes == [] <==> forall i :: 0 <= i < |samples| ==> InDeadZone(samples[i])
    ensures Run(Initial, samples).changes == [] <==> Run(Initial, samples).final == Unknown
    decreases |samples|
  {
    if |samples| > 0 {
      var init := samples[..|samples| - 1];
      var last := samples[|samples| - 1];
      FreshDetectorSilentUntilDecisive(init);
      var prev := Run(Initial, init);
      var st := Step(prev.final, last);
      assert Run(Initial, samples) == Trace(st.next, prev.changes + ToSeq(st.change));
      if prev.changes == [] {
        assert forall i :: 0 <= i < |init| ==> init[i] == samples[i];
      } else {
        var i :| 0 <= i < |init| && !InDeadZone(init[i]);
        assert samples[i] == init[i];
      }
    }
  }
}
