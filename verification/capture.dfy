/**
 * What happens to a photo once the capture output hands it back: the
 * orientation tag is stamped into its metadata, it is re-encoded and decoded,
 * and, unless the device is held in landscape, it is cropped to 9:16.
 *
 * The platform calls are parameters: `render` stands for re-encoding the photo
 * with replacement metadata and decoding the result into an image (either
 * step may fail), and `cropping` stands for `CGImage.cropping(to:)` (which may
 * fail too).
 */
module Capture {
  import opened Wrappers
  import opened Orientations
  import opened Exif
  import opened Crop
  import opened OrientationDetector

  /** A decoded bitmap (`CGImage`), of which only the pixel size matters here. */
  datatype Bitmap = Bitmap(width: nat, height: nat)

  /**
   * A `UIImage`: its backing bitmap, if it has one, its scale, and its
   * `imageOrientation` (one of UIKit's eight cases, by index).
   */
  datatype Image = Image(bitmap: Option<Bitmap>, scale: real, imageOrientation: nat)

  /**
   * The nested `cropImage`: no result without a backing bitmap or when the
   * platform crop fails; otherwise a new image around the cropped bitmap that
   * keeps the original scale and image orientation.
   */
  function CropImage(image: Image, cropping: (Bitmap, Rect) -> Option<Bitmap>): (r: Option<Image>)
    ensures r.Some? <==> (image.bitmap.Some?
      && cropping(image.bitmap.value, CropRect(image.bitmap.value.width, image.bitmap.value.height)).Some?)
    ensures r.Some? ==> r.value.scale == image.scale && r.value.imageOrientation == image.imageOrientation
    ensures r.Some? ==> r.value.bitmap == cropping(image.bitmap.value, CropRect(image.bitmap.value.width, image.bitmap.value.height))
  {
    match image.bitmap
    case None => None
    case Some(bm) =>
      match cropping(bm, CropRect(bm.width, bm.height))
      case None => None
      case Some(c) => Some(Image(Some(c), image.scale, image.imageOrientation))
  }

  /** The crop is attempted exactly for the orientations that are not landscape. */
  predicate CropAttempted(o: Orientation) {
    !IsLandscape(o)
  }

  /**
   * The image delivered to the delegate: the cropped image when a crop is
   * attempted and succeeds, the decoded image itself otherwise.
   */
  function PostProcess(o: Orientation, image: Image, cropping: (Bitmap, Rect) -> Option<Bitmap>): (r: Image)
    ensures !CropAttempted(o) ==> r == image
    ensures CropAttempted(o) && CropImage(image, cropping).Some? ==> Some(r) == CropImage(image, cropping)
    ensures CropImage(image, cropping).None? ==> r == image
    ensures r.scale == image.scale && r.imageOrientation == image.imageOrientation
  {
    if CropAttempted(o) then
      match CropImage(image, cropping)
      case Some(cropped) => cropped
      case None => image
    else image
  }

  /**
   * The platform crop honours every in-bounds rectangle of this bitmap that
   * has positive area with a bitmap of the rectangle's size. Nothing is
   * assumed of empty rectangles, for which `CGImage.cropping(to:)` gives nil.
   */
  ghost predicate CropsExactly(cropping: (Bitmap, Rect) -> Option<Bitmap>, bm: Bitmap) {
    forall r: Rect :: InBounds(r, bm.width, bm.height) && r.width > 0 && r.height > 0 ==>
      cropping(bm, r) == Some(Bitmap(r.width, r.height))
  }

  /**
   * With a platform crop that honours non-empty in-bounds rectangles, a photo
   * taken in portrait (or with the orientation still unknown) from a bitmap
   * at least two pixels tall and at least nine sixteenths as wide as it is
   * tall comes out at 9:16: full height, and the largest width not exceeding
   * nine sixteenths of it. Below two pixels of height the crop is empty.
   */
  lemma NonLandscapePhotoIsNineBySixteen(o: Orientation, image: Image, cropping: (Bitmap, Rect) -> Option<Bitmap>)
    requires !IsLandscape(o)
    requires image.bitmap.Some? && CropsExactly(cropping, image.bitmap.value)
    requires image.bitmap.value.height >= 2
    requires CropRect(image.bitmap.value.width, image.bitmap.value.height).width <= image.bitmap.value.width
    ensures var r := PostProcess(o, image, cropping);
      && r.bitmap.Some?
      && r.bitmap.value.height == image.bitmap.value.height
      && 16 * r.bitmap.value.width <= 9 * image.bitmap.value.height < 16 * (r.bitmap.value.width + 1)
  {
  }

  /**
   * The photo delegate callback, up to the delegate call: None when encoding
   * or decoding fails (the delegate is then not called), otherwise the image
   * handed to the delegate. `o` is the detector's current orientation.
   */
  function DidFinishProcessingPhoto(
    o: Orientation,
    metadata: Metadata,
    render: Metadata -> Option<Image>,
    cropping: (Bitmap, Rect) -> Option<Bitmap>
  ): (r: Option<Image>)
    ensures r.Some? <==> render(StampOrientation(metadata, o)).Some?
    ensures r.Some? && !CropAttempted(o) ==> r == render(StampOrientation(metadata, o))
    ensures r.Some? ==> r.value == PostProcess(o, render(StampOrientation(metadata, o)).value, cropping)
    ensures r.Some? && CropAttempted(o) ==>
      var decoded := render(StampOrientation(metadata, o)).value;
      (CropImage(decoded, cropping).Some? ==> r == CropImage(decoded, cropping))
      && (CropImage(decoded, cropping).None? ==> r.value == decoded)
    ensures r.Some? ==> r.value.scale == render(StampOrientation(metadata, o)).value.scale
  {
    match render(StampOrientation(metadata, o))
    case None => None
    case Some(image) => Some(PostProcess(o, image, cropping))
  }

  /**
   * What the encoder is handed, in terms of the samples a fresh detector has
   * seen: once some sample has left the dead zone, the metadata's orientation
   * tag reads back as the orientation the detector reported last, and every
   * other entry is the photo's own; while every sample has been in the dead
   * zone, the photo's metadata goes to the encoder untouched.
   */
  lemma EncoderSeesDetectorOrientation(samples: seq<Sample>, metadata: Metadata)
    ensures var t := Run(Initial, samples);
      (exists i :: 0 <= i < |samples| && !InDeadZone(samples[i])) ==>
        && |t.changes| > 0
        && ReadOrientation(StampOrientation(metadata, t.final)) == Some(t.changes[|t.changes| - 1].to)
        && (forall k :: k in metadata && k != OrientationKey ==> StampOrientation(metadata, t.final)[k] == metadata[k])
    ensures (forall i :: 0 <= i < |samples| ==> InDeadZone(samples[i])) ==>
      StampOrientation(metadata, Run(Initial, samples).final) == metadata
  {
  }
}
