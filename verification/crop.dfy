/**
 * The rectangle the camera screen crops a photo to: the full pixel height and
 * a width of nine sixteenths of it, centred horizontally, all in Swift `Int`
 * arithmetic.
 */
module Crop {

  /** Swift's `/` on `Int`, which truncates toward zero (Dafny's `/` is Euclidean). */
  function TruncDiv(a: int, b: int): (q: int)
    requires b > 0
    ensures a >= 0 ==> 0 <= a - q * b < b
    ensures a < 0 ==> -b < a - q * b <= 0
  {
    if a >= 0 then a / b else -((-a) / b)
  }

  /** A `CGRect` with integral origin and size, as the crop builds it. */
  datatype Rect = Rect(x: int, y: int, width: int, height: int)

  /** The rectangle `cropImage` asks for, given the decoded bitmap's width and height. */
  function CropRect(originalWidth: nat, height: nat): (r: Rect)
    ensures r.y == 0 && r.height == height
    ensures 16 * r.width <= 9 * height < 16 * (r.width + 1)
    ensures 0 <= r.width <= height
  {
    var croppedWidth := TruncDiv(height * 9, 16);
    Rect(TruncDiv(originalWidth - croppedWidth, 2), 0, croppedWidth, height)
  }

  /** The left margin: columns of the bitmap left of the rectangle (negative when it overhangs). */
  function LeftMargin(r: Rect): int {
    r.x
  }

  /** The right margin: columns of the bitmap right of the rectangle (negative when it overhangs). */
  function RightMargin(originalWidth: nat, r: Rect): int {
    originalWidth - (r.x + r.width)
  }

  /**
   * The rectangle is centred: its two margins differ by at most one column.
   * When the bitmap is at least as wide as the crop, the rectangle lies
   * inside it and any odd column goes to the right margin; when it is
   * narrower, the rectangle overhangs both sides and the odd column of
   * overhang goes to the left, because Swift's division truncates toward zero.
   */
  lemma CropRectIsCentred(originalWidth: nat, height: nat)
    ensures var r := CropRect(originalWidth, height);
      var left := LeftMargin(r);
      var right := RightMargin(originalWidth, r);
      && -1 <= right - left <= 1
      && (originalWidth >= r.width ==> 0 <= left && 0 <= right && right - left == (originalWidth - r.width) % 2)
      && (originalWidth < r.width ==> left <= 0 && right <= 0 && left - right == (r.width - originalWidth) % 2)
  {
  }

  /** A rectangle lies within a bitmap of the given size. */
  predicate InBounds(r: Rect, width: nat, height: nat) {
    0 <= r.x && 0 <= r.y && 0 <= r.width && 0 <= r.height
    && r.x + r.width <= width && r.y + r.height <= height
  }

  /** The crop fits the bitmap exactly when the bitmap is at least nine sixteenths as wide as it is tall. */
  lemma CropRectInBoundsIff(originalWidth: nat, height: nat)
    ensures InBounds(CropRect(originalWidth, height), originalWidth, height)
        <==> CropRect(originalWidth, height).width <= originalWidth
  {
  }

  /**
   * Where the truncating and the Euclidean division part ways: a 0-by-16
   * bitmap gets a 9-column crop starting at column -4, where Dafny's `/`
   * would have said -5.
   */
  lemma TruncationMatters()
    ensures CropRect(0, 16) == Rect(-4, 0, 9, 16)
    ensures (0 - 9) / 2 == -5
  {
  }
}
