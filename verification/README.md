# LHCameraViewController — orientation detection and capture post-processing in Dafny

LHCameraViewController is an iOS camera screen. Two pieces of pure logic sit inside it, and this project models both:

- **The device-orientation detector** (`LHDeviceOrientationDetector`). It classifies each accelerometer sample `(x, y)` with fixed ±0.75 g thresholds. The x axis is tested first. Samples in the dead zone are ignored. The detector reports `(from, to)` to its delegate only when the classified orientation differs from the current one. A fresh detector starts at `Unknown`.
- **The capture post-processing rules** (`LHCameraViewController`):
  - the EXIF `Orientation` tag written for each orientation (tag 0x0112, section 4.6.4 of EXIF 2.3);
  - the centred 9:16 crop rectangle, computed in Swift `Int` arithmetic;
  - the decision to crop only outside landscape;
  - the button rotation and overlay visibility chosen on each orientation change.

Modules, one per concept:

| file | module | contents |
|---|---|---|
| `wrappers.dfy` | `Wrappers` | `Option`, standing for Swift optionals |
| `orientations.dfy` | `Orientations` | `UIInterfaceOrientation`, `isLandscape`, half and quarter turns, the device's turn from portrait |
| `detector.dfy` | `OrientationDetector` | classification, the debounced step, runs of samples |
| `exif.dfy` | `Exif` | the orientation tag table and the metadata stamp |
| `crop.dfy` | `Crop` | truncating division and the crop rectangle |
| `capture.dfy` | `Capture` | the nested `cropImage`, the crop decision, the photo callback |
| `chrome.dfy` | `Chrome` | button transforms and overlay alpha per orientation |

Modelling choices:

- Acceleration components are `real`. The source only compares them with the constants ±0.75, so no floating-point behaviour is involved.
- Pixel sizes are `nat`. Swift's `/` truncates toward zero, and Dafny's is Euclidean, so `Crop.TruncDiv` writes the truncation out. The difference shows when a bitmap is narrower than its crop.
- The platform calls are function parameters:
  - `render` stands for `fileDataRepresentation(withReplacementMetadata:…)` followed by `UIImage(data:)`;
  - `cropping` stands for `CGImage.cropping(to:)`.
  
  Either may fail, and the model follows the source's handling of each failure.
- Button transforms are quarter turns (`NoTurn`, `MinusQuarterTurn` for −π/2, `PlusQuarterTurn` for +π/2), not radian-valued affine transforms.
- Photo metadata is a `map<string, MetaValue>`. Values other than numbers and text are opaque.

## Model

| member | source | states |
|---|---|---|
| `OrientationDetector.Classify` | LHCameraViewController/LHDeviceOrientationDetector.swift:50-64 | Classification never yields Unknown. It returns orientation o exactly when the sample lies in o's region, stated without test order: LandscapeLeft x ≥ 0.75, LandscapeRight x ≤ −0.75, Portrait −0.75 < x < 0.75 and y ≤ −0.75, PortraitUpsideDown −0.75 < x < 0.75 and y ≥ 0.75. It returns nothing exactly in the dead zone, where x and y both lie strictly between −0.75 and 0.75, and the source returns without a notification. |
| `OrientationDetector.ClassifyMatchesRegions` | LHCameraViewController/LHDeviceOrientationDetector.swift:50-63 | The four orientation regions and the dead zone partition the samples. Every sample lies in exactly one of them. |
| `OrientationDetector.XAxisTakesPrecedence` | LHCameraViewController/LHDeviceOrientationDetector.swift:50-55 | Once x is past either threshold, y has no influence and the result is a landscape orientation. |
| `OrientationDetector.ClassifyPointSymmetric` | LHCameraViewController/LHDeviceOrientationDetector.swift:50-63 | Negating a sample (the device turned half a turn) yields the opposite orientation, and a dead-zone sample stays in the dead zone. |
| `OrientationDetector.ClassifyFollowsQuarterTurn` | LHCameraViewController/LHDeviceOrientationDetector.swift:50-63 | Outside the corners where both axes pass the threshold, a quarter clockwise turn of the device moves the classification one step along Portrait → LandscapeLeft → PortraitUpsideDown → LandscapeRight. |
| `OrientationDetector.CornerBreaksQuarterTurn` | LHCameraViewController/LHDeviceOrientationDetector.swift:50-55 | In a corner the x-first order breaks that symmetry. Sample (0.8, 0.8) is LandscapeLeft, and its quarter-turned image is LandscapeRight, not PortraitUpsideDown. |
| `OrientationDetector.Step` | LHCameraViewController/LHDeviceOrientationDetector.swift:47-69 | A notification is sent exactly when the sample classifies to an orientation other than the current one. It carries `from` = old and `to` = new, with `from ≠ to`. The new orientation becomes current. Otherwise, including every dead-zone sample, the state is unchanged. |
| `OrientationDetector.StepIsIdempotent` | LHCameraViewController/LHDeviceOrientationDetector.swift:66-68 | Repeating a sample right away changes nothing and reports nothing. |
| `OrientationDetector.StepNeverReturnsToUnknown` | LHCameraViewController/LHDeviceOrientationDetector.swift:47-68 | From a known orientation, a step never leads to Unknown and never reports a change to Unknown. |
| `OrientationDetector.Run` | LHCameraViewController/LHDeviceOrientationDetector.swift:47-68 | The notifications of any run of samples form a chain. The first starts at the initial state. Each starts where the previous one ended. None is a self-loop. The last ends at the final state. A run sends at most one notification per sample, never reports Unknown, and never returns to Unknown from a known start. |
| `OrientationDetector.RepeatedSampleIsSilent` | LHCameraViewController/LHDeviceOrientationDetector.swift:66-68 | Delivering a sample twice in a row yields the same state and the same notifications as delivering it once. |
| `OrientationDetector.FreshDetectorSilentUntilDecisive` | LHCameraViewController/LHDeviceOrientationDetector.swift:20-68 | A detector starting at its initial `Unknown` state stays silent exactly while every sample so far lies in the dead zone. It stays Unknown exactly while it is silent. |
| `Exif.OrientationTag` | LHCameraViewController/LHCameraViewController.swift:106-117 | A tag is written exactly for the four known orientations, always one of 1, 3, 6, 8. Unknown writes none. |
| `Exif.TagRoundTrip` | LHCameraViewController/LHCameraViewController.swift:106-114 | Reading the written tag back gives the orientation, so the table is injective. Each readable tag comes from exactly that orientation. |
| `Exif.TagTracksDeviceRotation` | LHCameraViewController/LHCameraViewController.swift:106-114 | Under the EXIF 2.3 meaning of tags 1/6/3/8 (0, 1, 2, 3 clockwise quarter turns to display), the tag's display turn is the device's clockwise turn from portrait plus one quarter turn. So a quarter clockwise turn of the device adds a quarter turn to the tag, and a half turn adds two. |
| `Exif.StampOrientation` | LHCameraViewController/LHCameraViewController.swift:104-117 | For Unknown the metadata is unchanged. Otherwise the `"Orientation"` entry reads back as the orientation. No other key is added, removed or changed. |
| `Exif.StampLastWins` | LHCameraViewController/LHCameraViewController.swift:104-117 | Stamping twice with the same orientation equals stamping once. A later known orientation overrides an earlier stamp. |
| `Crop.TruncDiv` | LHCameraViewController/LHCameraViewController.swift:131 | Swift integer division: the remainder has the sign of the dividend and is smaller than the divisor in magnitude. |
| `Crop.CropRect` | LHCameraViewController/LHCameraViewController.swift:129-131 | The crop has y = 0 and the full height. Its width is the largest whole width not exceeding 9/16 of the height, so `16·w ≤ 9·h < 16·(w+1)` and `0 ≤ w ≤ h`. |
| `Crop.CropRectIsCentred` | LHCameraViewController/LHCameraViewController.swift:131 | The left and right margins differ by at most one column. When the bitmap is at least as wide as the crop, both margins are non-negative and the odd column goes right. When it is narrower, the crop overhangs both sides and the odd column of overhang goes left. |
| `Crop.CropRectInBoundsIff` | LHCameraViewController/LHCameraViewController.swift:129-131 | The crop rectangle lies inside the bitmap exactly when the bitmap is at least as wide as the crop. |
| `Crop.TruncationMatters` | LHCameraViewController/LHCameraViewController.swift:131 | For a 0×16 bitmap the crop starts at x = −4, whereas Euclidean division would give −5. |
| `Capture.CropImage` | LHCameraViewController/LHCameraViewController.swift:125-133 | Cropping succeeds exactly when the image has a bitmap and the platform crop of the computed rectangle succeeds. The result keeps the scale and image orientation and holds that crop. |
| `Capture.PostProcess` | LHCameraViewController/LHCameraViewController.swift:135-139 | In landscape the decoded image is delivered as is. Otherwise the cropped image is delivered when cropping succeeds, and the original is kept when it fails. |
| `Capture.NonLandscapePhotoIsNineBySixteen` | LHCameraViewController/LHCameraViewController.swift:125-139 | Assume the orientation is not landscape and the platform crop returns a bitmap of the requested size for every non-empty in-bounds rectangle. Assume also that the bitmap is at least 2 pixels tall and at least as wide as its crop. Then the delivered bitmap keeps the full height h and has width w with `16·w ≤ 9·h < 16·(w+1)`. |
| `Capture.DidFinishProcessingPhoto` | LHCameraViewController/LHCameraViewController.swift:102-141 | The delegate gets an image exactly when rendering the restamped metadata succeeds. That image is the rendered one after post-processing. In landscape it is the rendered image unchanged. Otherwise it is the cropped image when cropping succeeds, and the rendered image when cropping fails. The scale is always preserved. |
| `Capture.EncoderSeesDetectorOrientation` | LHCameraViewController/LHCameraViewController.swift:104-119 | Feed a fresh detector any samples. Once one sample has left the dead zone, the metadata handed to the encoder carries the orientation the detector reported last, and every other entry of the photo's metadata is unchanged. While all samples lie in the dead zone, the photo's metadata goes to the encoder untouched. |
| `Chrome.AppearanceFor` | LHCameraViewController/LHCameraViewController.swift:152-172 | The cancel and shutter buttons always get the same transform. The overlay alpha is 0 or 1. |
| `Chrome.AppearanceMatchesCrop` | LHCameraViewController/LHCameraViewController.swift:154-170 | The buttons turn exactly in landscape, by one quarter turn. The two landscape turns cancel each other. The overlay is shown (alpha 1) exactly when a photo would be cropped. |
| `Chrome.ButtonsUndoDeviceTurn` | LHCameraViewController/LHCameraViewController.swift:154-167 | LandscapeLeft gets −π/2 and LandscapeRight +π/2. In Portrait and both landscapes, the buttons' clockwise quarter turns cancel the device's clockwise turn from portrait, modulo a full turn, so the buttons read upright. Upside down they get the identity and stay half a turn from upright. |
| `Chrome.Shown` | LHCameraViewController/LHCameraViewController.swift:152-172 | After the handler has run for each notification in turn, the screen shows the storyboard's initial appearance if nothing was reported. Otherwise it shows the appearance for the orientation reported last, with both buttons turned alike. |
| `Chrome.ScreenAgreesWithDetector` | LHCameraViewController/LHCameraViewController.swift:152-172 | For any samples fed to a fresh detector that has reported something, the screen shows the appearance of the detector's current orientation. So the overlay is visible exactly when a photo taken now would be cropped. |

## Left out

- The CoreMotion subscription (`startDeviceOrientationUpdates`, `stopDeviceOrientationUpdates`, the update interval, the operation queue and the hop to the main queue) is I/O and concurrency. Only the per-sample step it drives is modelled.
- The accelerometer error callback (`orientationDetector(_:didReceive:)`) only prints the error.
- `makeCaptureSession`, `capturePhoto`, `viewDidLoad` and `deinit` are AVFoundation session plumbing and foreign framework calls.
- Image encoding and decoding and `CGImage.cropping(to:)` are opaque platform calls. They appear as the `render` and `cropping` parameters. Only the rectangle and the decisions around them are modelled.
- `UIView.animate` and its 0.2 s duration are animation. Transforms are quarter turns, not `CGAffineTransform` radian values.
- The delegate protocols, storyboard outlets, the cancel action, disabling the shutter button, and `supportedInterfaceOrientations` are UI glue.
- `PreviewView.swift` is a typed accessor over the preview layer and contains no logic.
- Crop.CropRect: the model does not include Swift's overflow trap on `height * 9`, which needs a height above 2^63/9 pixels.
- The appearance before the first notification comes from the storyboard, which is not part of this model. `Chrome.Shown` takes it as a parameter.
