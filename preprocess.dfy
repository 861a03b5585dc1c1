/**
 * The binarisation and scaling steps of preprocess_image (UI.py, lines 68-69).
 * The grayscale conversion and the area-averaging resize before them are
 * library image operations and are taken as given: this module starts from
 * the resized single-channel image.
 */
module Preprocessing {

  /** An 8-bit pixel value. */
  type Byte = x: int | 0 <= x < 256

  /** A single-channel image, row by row. */
  type GrayImage = seq<seq<Byte>>

  /** A normalised image, row by row. */
  type Tensor = seq<seq<real>>

  /** The threshold and maximum value handed to the binary threshold. */
  const THRESHOLD: Byte := 127
  const MAX_VALUE: Byte := 255

  /** The side of the square image the classifier takes. */
  const SIDE: nat := 28

  /** Two images have the same number of rows and the same row lengths. */
  predicate SameShape<T, U>(a: seq<seq<T>>, b: seq<seq<U>>) {
    |a| == |b| && forall i :: 0 <= i < |a| ==> |a[i]| == |b[i]|
  }

  predicate IsSquare28<T>(img: seq<seq<T>>) {
    |img| == SIDE && forall i :: 0 <= i < |img| ==> |img[i]| == SIDE
  }

  /** Binary thresholding of one pixel: strictly above the threshold becomes the maximum, the rest 0. */
  function Threshold(p: Byte): (q: Byte)
    ensures q == 0 || q == MAX_VALUE
    ensures q == MAX_VALUE <==> p > THRESHOLD
  {
    if p > THRESHOLD then MAX_VALUE else 0
  }

  /** Binary thresholding of one row, pixel by pixel. */
  function BinarizeRow(row: seq<Byte>): (r: seq<Byte>)
    ensures |r| == |row|
    ensures forall j :: 0 <= j < |r| ==> r[j] == Threshold(row[j])
  {
    if row == [] then [] else [Threshold(row[0])] + BinarizeRow(row[1..])
  }

  /** Binary thresholding of a whole image. */
  function Binarize(img: GrayImage): (r: GrayImage)
    ensures SameShape(img, r)
    ensures forall i, j :: 0 <= i < |r| && 0 <= j < |r[i]| ==> r[i][j] == Threshold(img[i][j])
  {
    seq(|img|, i requires 0 <= i < |img| => BinarizeRow(img[i]))
  }

  /** Conversion to floating point and division by 255, pixel by pixel. */
  function Scale(img: GrayImage): (t: Tensor)
    ensures SameShape(img, t)
    ensures forall i, j :: 0 <= i < |t| && 0 <= j < |t[i]| ==> t[i][j] * 255.0 == img[i][j] as real
  {
    seq(|img|, i requires 0 <= i < |img| =>
      seq(|img[i]|, j requires 0 <= j < |img[i]| => img[i][j] as real / 255.0))
  }

  /** Threshold, then scale: the part of preprocess_image after the resize. */
  function Preprocess(img: GrayImage): (t: Tensor)
    ensures SameShape(img, t)
  {
    Scale(Binarize(img))
  }

  /** Thresholding a thresholded image changes nothing. */
  lemma BinarizeRowIdempotent(row: seq<Byte>)
    ensures BinarizeRow(BinarizeRow(row)) == BinarizeRow(row)
  {
  }

  lemma BinarizeIdempotent(img: GrayImage)
    ensures Binarize(Binarize(img)) == Binarize(img)
  {
    forall i | 0 <= i < |img|
      ensures Binarize(Binarize(img))[i] == Binarize(img)[i]
    {
      BinarizeRowIdempotent(img[i]);
    }
  }

  /**
   * Every preprocessed value is exactly 0 or 1, and it is 1 exactly where the
   * resized pixel was above the threshold; the shape is kept, so a 28x28 image
   * gives a 28x28 tensor.
   */
  lemma PreprocessBinary(img: GrayImage)
    ensures SameShape(img, Preprocess(img))
    ensures IsSquare28(img) ==> IsSquare28(Preprocess(img))
    ensures forall i, j :: 0 <= i < |img| && 0 <= j < |img[i]| ==>
      (Preprocess(img)[i][j] == 0.0 || Preprocess(img)[i][j] == 1.0)
    ensures forall i, j :: 0 <= i < |img| && 0 <= j < |img[i]| ==>
      (Preprocess(img)[i][j] == 1.0 <==> img[i][j] > THRESHOLD)
  {
  }

  /** Scaling keeps every 8-bit value within [0, 1]. */
  lemma ScaleInUnitRange(img: GrayImage)
    ensures forall i, j :: 0 <= i < |img| && 0 <= j < |img[i]| ==> 0.0 <= Scale(img)[i][j] <= 1.0
  {
  }
}
