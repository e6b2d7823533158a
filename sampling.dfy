/** The sampling loops of the main detector (detect_cam_1, detect_cam_2): one
    colour label per calibrated point, read from the camera's HSV frame
    through the colour table. The two functions differ only in which camera,
    point list and label buffer they use, so one method models both. */
module Sampling {
  import opened Frames
  import opened ColorLut

  /** The label stored for one point: the table entry of the pixel at row y,
      column x when the point lies inside the frame, N otherwise. */
  function SampleAt(lut: ColorTable, frame: array2<Hsv>, p: Point): (c: char)
    requires lut.Valid()
    reads lut.table, frame
    ensures InFrame(frame, p) ==> c == lut.table[frame[p.y, p.x].h, frame[p.y, p.x].s, frame[p.y, p.x].v]
    ensures !InFrame(frame, p) ==> c == 'N'
  {
    if InFrame(frame, p) then lut.Lookup(frame[p.y, p.x]) else 'N'
  }

  /** detect_cam_1 / detect_cam_2 after the frame has been captured and
      converted to HSV. An empty frame makes the function return before the
      loop, leaving every label as it was (a missing camera has the same
      effect). Otherwise label i, for each point i, becomes the sample of that
      point; labels past the point list are untouched. The label buffer holds
      24 entries in the source and is indexed by point number, so the point
      list must not be longer than the buffer. */
  method DetectCamera(lut: ColorTable, frame: array2<Hsv>, points: seq<Point>, labels: array<char>)
    requires lut.Valid()
    requires |points| <= labels.Length
    modifies labels
    ensures EmptyFrame(frame) ==> labels[..] == old(labels[..])
    ensures !EmptyFrame(frame) ==> forall i :: 0 <= i < |points| ==> labels[i] == SampleAt(lut, frame, points[i])
    ensures forall i :: |points| <= i < labels.Length ==> labels[i] == old(labels[i])
  {
    if EmptyFrame(frame) {
      return;
    }
    for i := 0 to |points|
      invariant forall k :: 0 <= k < i ==> labels[k] == SampleAt(lut, frame, points[k])
      invariant forall k :: i <= k < labels.Length ==> labels[k] == old(labels[k])
    {
      var x, y := points[i].x, points[i].y;
      if x >= 0 && x < frame.Length1 && y >= 0 && y < frame.Length0 {
        labels[i] := lut.Lookup(frame[y, x]);
      } else {
        labels[i] := 'N';
      }
    }
  }
}
