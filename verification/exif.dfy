/**
 * The EXIF `Orientation` tag (TIFF tag 0x0112, section 4.6.4 of the EXIF 2.3
 * standard) written into a captured photo's metadata from the detector's
 * current orientation.
 */
module Exif {
  import opened Wrappers
  import opened Orientations

  /** The metadata key the camera screen writes. */
  const OrientationKey: string := "Orientation"

  /** A metadata value; the dictionary is heterogeneous, so anything that is not a number or text is opaque. */
  datatype MetaValue = Number(n: int) | Text(s: string) | Opaque(id: nat)

  type Metadata = map<string, MetaValue>

  /** The tag value written for each orientation; Unknown writes nothing. */
  function OrientationTag(o: Orientation): (r: Option<int>)
    ensures r.Some? <==> o != Unknown
    ensures r.Some? ==> r.value in {1, 3, 6, 8}
  {
    match o
    case LandscapeLeft => Some(3)
    case LandscapeRight => Some(1)
    case Portrait => Some(6)
    case PortraitUpsideDown => Some(8)
    case Unknown => None
  }

  /** The orientation a tag value written by the camera screen stands for. */
  function OrientationOfTag(tag: int): Option<Orientation> {
    if tag == 3 then Some(LandscapeLeft)
    else if tag == 1 then Some(LandscapeRight)
    else if tag == 6 then Some(Portrait)
    else if tag == 8 then Some(PortraitUpsideDown)
    else None
  }

  /** Reading the tag back recovers the orientation, so distinct orientations get distinct tags. */
  lemma TagRoundTrip(o: Orientation, tag: int)
    ensures o != Unknown ==> OrientationOfTag(OrientationTag(o).value) == Some(o)
    ensures OrientationOfTag(tag).Some? ==> OrientationTag(OrientationOfTag(tag).value) == Some(tag)
  {
  }

  /**
   * For the four unmirrored tag values, the number of clockwise quarter turns
   * a viewer applies to the stored pixels to show them upright (section 4.6.4
   * of EXIF 2.3: 1 is upright, 6 needs a quarter turn clockwise, 3 a half
   * turn, 8 a quarter turn counter-clockwise).
   */
  function DisplayQuarterTurns(tag: int): Option<int> {
    if tag == 1 then Some(0)
    else if tag == 6 then Some(1)
    else if tag == 3 then Some(2)
    else if tag == 8 then Some(3)
    else None
  }

  /**
   * The tag table is consistent with the geometry: the rotation the viewer
   * applies is the device's clockwise turn from portrait plus one quarter
   * turn (the sensor's upright is landscape with the home button on the
   * right). So turning the device a quarter clockwise adds one clockwise
   * quarter turn to the tag, and a half turn of the device adds a half turn.
   */
  lemma TagTracksDeviceRotation(o: Orientation)
    requires o != Unknown
    ensures DisplayQuarterTurns(OrientationTag(o).value).Some?
    ensures DisplayQuarterTurns(OrientationTag(o).value).value == (DeviceQuarterTurns(o).value + 1) % 4
    ensures DisplayQuarterTurns(OrientationTag(ClockwiseNext(o)).value).value
         == (DisplayQuarterTurns(OrientationTag(o).value).value + 1) % 4
    ensures DisplayQuarterTurns(OrientationTag(Opposite(o)).value).value
         == (DisplayQuarterTurns(OrientationTag(o).value).value + 2) % 4
  {
  }

  /** The orientation recorded in a metadata dictionary, if it holds a tag the camera screen writes. */
  function ReadOrientation(m: Metadata): Option<Orientation> {
    if OrientationKey in m && m[OrientationKey].Number? then OrientationOfTag(m[OrientationKey].n)
    else None
  }

  /**
   * The metadata handed to the encoder: the orientation tag set for a known
   * orientation, and the dictionary unchanged otherwise.
   */
  function StampOrientation(m: Metadata, o: Orientation): (r: Metadata)
    ensures o == Unknown ==> r == m
    ensures o != Unknown ==> ReadOrientation(r) == Some(o) && r.Keys == m.Keys + {OrientationKey}
    ensures forall k :: k != OrientationKey ==> (k in r <==> k in m)
    ensures forall k :: k in m && k != OrientationKey ==> r[k] == m[k]
  {
    match OrientationTag(o)
    case None => m
    case Some(tag) => m[OrientationKey := Number(tag)]
  }

  /** Stamping is idempotent, and a later known orientation overrides an earlier stamp. */
  lemma StampLastWins(m: Metadata, o: Orientation, o': Orientation)
    ensures StampOrientation(StampOrientation(m, o), o) == StampOrientation(m, o)
    ensures o' != Unknown ==> StampOrientation(StampOrientation(m, o), o') == StampOrientation(m, o')
  {
  }
}
