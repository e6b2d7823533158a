/** Camera frames and calibrated pixel positions, shared by both detectors.
    A frame is a 2-D array indexed [row, column], so `Length0` is the number
    of rows (the image height) and `Length1` the number of columns (width). */
module Frames {

  /** A calibrated sample position: `x` is the column, `y` the row. */
  datatype Point = Point(x: int, y: int)

  /** An 8-bit channel value. */
  type Channel = c: int | 0 <= c < 256

  /** A pixel of a camera frame as OpenCV stores it: blue, green, red. */
  datatype Bgr = Bgr(b: Channel, g: Channel, r: Channel)

  /** A frame holds no pixel at all (an empty image). */
  predicate EmptyFrame<T>(frame: array2<T>)
  {
    frame.Length0 == 0 || frame.Length1 == 0
  }

  /** The bounds test both detectors make before reading a pixel. */
  predicate InFrame<T>(frame: array2<T>, p: Point)
  {
    0 <= p.x < frame.Length1 && 0 <= p.y < frame.Length0
  }
}
