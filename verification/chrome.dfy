/**
 * The screen's reaction to an orientation change: in either landscape the
 * cancel and shutter buttons are turned back against the device's turn so
 * they read upright, and the overlay is hidden. In every other orientation,
 * PortraitUpsideDown included, the buttons get the identity transform, so
 * upside down they are not turned to stay upright.
 */
module Chrome {
  import opened Orientations
  import opened OrientationDetector
  import opened Capture

  /**
   * A button transform, as a rotation by a whole number of quarter turns.
   * UIKit's y axis points down, so a positive angle turns clockwise on screen.
   */
  datatype Rotation =
    | NoTurn            // the identity transform
    | MinusQuarterTurn  // rotation angle -pi/2
    | PlusQuarterTurn   // rotation angle +pi/2

  /** The signed number of clockwise quarter turns of a rotation (angle = turns * pi/2). */
  function QuarterTurns(r: Rotation): int {
    match r
    case NoTurn => 0
    case MinusQuarterTurn => -1
    case PlusQuarterTurn => 1
  }

  /** The appearance the change handler animates to: both buttons' transforms and the overlay's alpha. */
  datatype Appearance = Appearance(cancel: Rotation, shutter: Rotation, overlayAlpha: real)

  /** The appearance chosen for the orientation a change arrives at. */
  function AppearanceFor(to: Orientation): (a: Appearance)
    ensures a.cancel == a.shutter
    ensures a.overlayAlpha == 0.0 || a.overlayAlpha == 1.0
  {
    match to
    case LandscapeLeft => Appearance(MinusQuarterTurn, MinusQuarterTurn, 0.0)
    case LandscapeRight => Appearance(PlusQuarterTurn, PlusQuarterTurn, 0.0)
    case _ => Appearance(NoTurn, NoTurn, 1.0)
  }

  /**
   * The three cases of the change handler, stated through what they mean:
   * the buttons turn exactly in landscape, a quarter turn either way, the two
   * landscape turns undo each other, and the overlay is shown exactly when
   * the photo will be cropped to it.
   */
  lemma AppearanceMatchesCrop(o: Orientation)
    ensures AppearanceFor(o).cancel != NoTurn <==> IsLandscape(o)
    ensures IsLandscape(o) ==> QuarterTurns(AppearanceFor(o).cancel) in {-1, 1}
    ensures IsLandscape(o) ==> QuarterTurns(AppearanceFor(o).cancel) + QuarterTurns(AppearanceFor(Opposite(o)).cancel) == 0
    ensures AppearanceFor(o).overlayAlpha == 1.0 <==> CropAttempted(o)
  {
  }

  /**
   * The direction of the turn: in Portrait and in both landscapes the buttons'
   * clockwise quarter turns undo the device's clockwise quarter turns from
   * portrait, so LandscapeLeft (device a quarter clockwise) gets -pi/2 and
   * LandscapeRight (a quarter counter-clockwise) gets +pi/2. Upside down
   * the buttons are left unturned, half a turn from upright.
   */
  lemma ButtonsUndoDeviceTurn(o: Orientation)
    ensures o == Portrait || IsLandscape(o) ==>
      (DeviceQuarterTurns(o).value + QuarterTurns(AppearanceFor(o).cancel)) % 4 == 0
    ensures o == PortraitUpsideDown ==>
      (DeviceQuarterTurns(o).value + QuarterTurns(AppearanceFor(o).cancel)) % 4 == 2
    ensures AppearanceFor(LandscapeLeft).cancel == MinusQuarterTurn
    ensures AppearanceFor(LandscapeRight).cancel == PlusQuarterTurn
  {
  }

  /**
   * The appearance after the handler has run for each notification in turn:
   * the storyboard's `initial` while nothing has been reported, and afterwards
   * the appearance of the orientation reported last.
   */
  function Shown(initial: Appearance, changes: seq<Change>): (a: Appearance)
    ensures |changes| == 0 ==> a == initial
    ensures |changes| > 0 ==> a == AppearanceFor(changes[|changes| - 1].to)
    ensures |changes| > 0 ==> a.cancel == a.shutter
    decreases |changes|
  {
    if |changes| == 0 then initial
    else Shown(AppearanceFor(changes[0].to), changes[1..])
  }

  /**
   * Whatever samples a fresh detector has seen, once it has reported anything
   * the screen's appearance is that of the detector's current orientation,
   * so the overlay is visible exactly when a photo taken now would be cropped.
   */
  lemma {:induction false} ScreenAgreesWithDetector(initial: Appearance, samples: seq<Sample>)
    ensures var t := Run(Initial, samples);
      |t.changes| > 0 ==>
        && Shown(initial, t.changes) == AppearanceFor(t.final)
        && (Shown(initial, t.changes).overlayAlpha == 1.0 <==> CropAttempted(t.final))
  {
  }
}
