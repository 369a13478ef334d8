/**
 * The interface orientations the camera screen reasons about, mirroring
 * UIKit's `UIInterfaceOrientation`. `LandscapeLeft` is the orientation whose
 * home button is on the left, i.e. the device turned a quarter clockwise from
 * upright portrait; `LandscapeRight` is the device turned a quarter
 * counter-clockwise.
 */
module Orientations {
  import opened Wrappers

  datatype Orientation = Unknown | Portrait | PortraitUpsideDown | LandscapeLeft | LandscapeRight

  /** UIKit's `isLandscape`: true only for the two landscape cases. */
  predicate IsLandscape(o: Orientation) {
    o == LandscapeLeft || o == LandscapeRight
  }

  /** The orientation reached by turning the device half a turn. */
  function Opposite(o: Orientation): Orientation {
    match o
    case Unknown => Unknown
    case Portrait => PortraitUpsideDown
    case PortraitUpsideDown => Portrait
    case LandscapeLeft => LandscapeRight
    case LandscapeRight => LandscapeLeft
  }

  /** The orientation reached by turning the device a quarter turn clockwise. */
  function ClockwiseNext(o: Orientation): Orientation {
    match o
    case Unknown => Unknown
    case Portrait => LandscapeLeft
    case LandscapeLeft => PortraitUpsideDown
    case PortraitUpsideDown => LandscapeRight
    case LandscapeRight => Portrait
  }

  /**
   * How many quarter turns clockwise the device is turned from upright
   * portrait, for the four known orientations; None for Unknown.
   */
  function DeviceQuarterTurns(o: Orientation): Option<int> {
    match o
    case Unknown => None
    case Portrait => Some(0)
    case LandscapeLeft => Some(1)
    case PortraitUpsideDown => Some(2)
    case LandscapeRight => Some(3)
  }

  /** Each ClockwiseNext adds one quarter turn, and Opposite adds two. */
  lemma DeviceQuarterTurnsFollowRotation(o: Orientation)
    requires o != Unknown
    ensures DeviceQuarterTurns(o).Some? && 0 <= DeviceQuarterTurns(o).value < 4
    ensures DeviceQuarterTurns(ClockwiseNext(o)) == Some((DeviceQuarterTurns(o).value + 1) % 4)
    ensures DeviceQuarterTurns(Opposite(o)) == Some((DeviceQuarterTurns(o).value + 2) % 4)
  {
  }
}
