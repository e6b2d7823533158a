/** The RGB ("Arduino-style") cube detector: each sampled facet is matched
    to the nearest of six reference colours by Manhattan distance, the match
    is corrected by a fixed chain of rules, and the 54 facets are checked
    for nine of each face letter. */
module ArduinoDetection {
  import opened Wrappers
  import opened Frames
  import opened Counting
  import opened ArduinoTables

  /** INT_MAX of a 32-bit int: the starting "closest distance so far". */
  const IntMax: int := 0x7fff_ffff

  function Abs(x: int): int
  {
    if x < 0 then -x else x
  }

  /** The running minimum of findClosestColor. */
  datatype Best = Best(index: int, distance: int)

  /** findClosestColor's scan over the distances `d`: starting from index 0
      at INT_MAX, a strictly smaller distance takes over. */
  function Scan(d: seq<int>): (b: Best)
    ensures 0 <= b.index && (d != [] ==> b.index < |d|)
  {
    if d == [] then Best(0, IntMax)
    else
      var b := Scan(d[..|d| - 1]);
      if d[|d| - 1] < b.distance then Best(|d| - 1, d[|d| - 1]) else b
  }

  /** The scan finds the first index of least distance, or stays at index 0
      when no distance is below INT_MAX. */
  lemma {:induction false} ScanIsFirstMinimum(d: seq<int>)
    ensures (forall i :: 0 <= i < |d| ==> d[i] >= IntMax) ==> Scan(d) == Best(0, IntMax)
    ensures (exists i :: 0 <= i < |d| && d[i] < IntMax) ==>
              0 <= Scan(d).index < |d| && Scan(d).distance == d[Scan(d).index] &&
              (forall i :: 0 <= i < |d| ==> d[Scan(d).index] <= d[i]) &&
              (forall i :: 0 <= i < Scan(d).index ==> d[i] > d[Scan(d).index])
  {
    if d != [] {
      var init := d[..|d| - 1];
      ScanIsFirstMinimum(init);
      assert forall i :: 0 <= i < |init| ==> init[i] == d[i];
    }
  }

  /** The reference-colour index of a calibration character, -1 for any
      other character. */
  function CalibrationSlot(c: char): (i: int)
    ensures -1 <= i < 6
    ensures i >= 0 <==> c in "WRGOBY"
    ensures i >= 0 ==> "WRGOBY"[i] == c
  {
    match c
    case 'W' => 0
    case 'R' => 1
    case 'G' => 2
    case 'O' => 3
    case 'B' => 4
    case 'Y' => 5
    case _ => -1
  }

  /** A calibration line read by the stream extraction `c >> r >> g >> b`. */
  datatype CalibrationEntry = CalibrationEntry(colour: char, r: int, g: int, b: int)

  /** A line of the colour calibration file: its text, and what the four
      extractions yield from it (None when one of them fails). */
  datatype CalibrationLine = CalibrationLine(text: string, parsed: Option<CalibrationEntry>)

  /** The reference colour a calibration line sets, if any: empty lines,
      comment lines, lines that do not parse and unknown colour characters
      set none. */
  function CalibrationTarget(line: CalibrationLine): Option<(int, CalibrationEntry)>
  {
    if line.text == [] || line.text[0] == '#' || line.parsed.None? then None
    else if CalibrationSlot(line.parsed.value.colour) < 0 then None
    else Some((CalibrationSlot(line.parsed.value.colour), line.parsed.value))
  }

  /** The reference rows after the lines are applied in order. */
  function ApplyCalibration(refs: seq<seq<int>>, lines: seq<CalibrationLine>): (r: seq<seq<int>>)
    ensures |r| == |refs|
  {
    if lines == [] then refs
    else
      var r := ApplyCalibration(refs, lines[..|lines| - 1]);
      match CalibrationTarget(lines[|lines| - 1])
      case None => r
      case Some((i, e)) => if i < |r| then r[i := [e.r, e.g, e.b]] else r
  }

  /** The colour-correction chain of applyColorDisambiguation, rule by rule. */
  function Disambiguate(minColor: int, r: int, g: int, b: int): (m: int)
    requires 0 <= minColor < 6
    ensures 0 <= m < 6
  {
    var m1 := if minColor == 0 || minColor == 3 then (if b > g then 0 else 3) else minColor;
    var m2 := if m1 == 3 || m1 == 5 then (if g < 170 then 3 else 5) else m1;
    var m3 := if m2 == 2 || m2 == 4 then (if g > b then 2 else 4) else m2;
    var m4 := if m3 == 0 || m3 == 4 then (if r > b then 0 else 4) else m3;
    var m5 := if m4 == 0 && r < 120 then 4 else m4;
    var m6 := if m5 == 0 && b < 180 then 5 else m5;
    m6
  }

  /** applyColorDisambiguation: the face letter of the corrected colour. */
  function ApplyColorDisambiguation(minColor: int, r: int, g: int, b: int): (c: char)
    requires 0 <= minColor < 6
    ensures c in FaceAssign
  {
    FaceAssign[Disambiguate(minColor, r, g, b)]
  }

  /** What the correction chain decides. Colour 1 (red, R) is never
      touched. U needs a white/orange match with blue over green, or a
      green/blue match with green not over blue, that is then redder than
      blue with red at least 120 and blue at least 180. F is a green or blue
      match that is greener than blue. D is a white/orange match with blue
      not over green, or a yellow match, with green below 170. */
  lemma DisambiguationRules(minColor: int, r: int, g: int, b: int)
    requires 0 <= minColor < 6
    ensures ApplyColorDisambiguation(minColor, r, g, b) == 'R' <==> minColor == 1
    ensures ApplyColorDisambiguation(minColor, r, g, b) == 'U' <==>
              ((minColor in {0, 3} && b > g) || (minColor in {2, 4} && g <= b)) && r > b && r >= 120 && b >= 180
    ensures ApplyColorDisambiguation(minColor, r, g, b) == 'F' <==> minColor in {2, 4} && g > b
    ensures ApplyColorDisambiguation(minColor, r, g, b) == 'D' <==>
              ((minColor in {0, 3} && b <= g) || minColor == 5) && g < 170
  {
    assert FaceAssign == ['U', 'R', 'F', 'D', 'L', 'B'];
  }

  /** std::find over `list`: whether `x` occurs in it, searched from the
      front. */
  predicate Occurs(list: seq<int>, x: int)
  {
    list != [] && (list[0] == x || Occurs(list[1..], x))
  }

  lemma {:induction false} OccursIsIn(list: seq<int>, x: int)
    ensures Occurs(list, x) <==> x in list
  {
    if list != [] {
      OccursIsIn(list[1..], x);
      assert list == [list[0]] + list[1..];
    }
  }

  /** isHardFacet: a search of the hard-facet list. */
  predicate IsHardFacet(i: int)
  {
    Occurs(HardFacets, i)
  }

  /** A facet is hard exactly when it is a corner of one of the six faces. */
  lemma HardMeansCorner(i: int)
    ensures IsHardFacet(i) <==> 0 <= i < 54 && Corner(i % 9)
  {
    OccursIsIn(HardFacets, i);
    HardFacetsAreCorners();
  }

  /** A state with every corner marked X can never pass validation: six
      letters nine times each would fill all 54 facets. */
  lemma {:induction false} MarkedCornersFail(state: seq<char>)
    requires |state| == 54
    requires forall p :: 0 <= p < 54 && Corner(p % 9) ==> state[p] == 'X'
    ensures !(forall j :: 0 <= j < 6 ==> multiset(state)[FaceAssign[j]] == 9)
  {
    FaceLettersDistinct();
    assert state[0] == 'X' by {
      assert Corner(0 % 9);
    }
    CountInMissing(state, Letters(FaceAssign), 0);
    CountInLettersWhen(state, FaceAssign, 9);
  }

  /** The detector object. */
  class ArduinoStyleDetection {
    /** The reference colours, one (red, green, blue) row per face. */
    const referenceColors: array2<int>
    /** The calibrated sample positions of each camera. */
    var camera1Points: seq<Point>
    var camera2Points: seq<Point>

    ghost predicate Valid()
      reads this
    {
      referenceColors.Length0 == 6 && referenceColors.Length1 == 3
    }

    /** The reference rows as values. */
    function References(): (refs: seq<seq<int>>)
      requires Valid()
      reads this, referenceColors
      ensures |refs| == 6
      ensures forall f, k :: 0 <= f < 6 && 0 <= k < 3 ==> |refs[f]| == 3 && refs[f][k] == referenceColors[f, k]
    {
      seq(6, f requires 0 <= f < 6 reads this, referenceColors =>
        [referenceColors[f, 0], referenceColors[f, 1], referenceColors[f, 2]])
    }

    /** A new detector holds the built-in reference colours and no
        positions. */
    constructor ()
      ensures Valid() && fresh(referenceColors)
      ensures References() == DefaultReferences
      ensures camera1Points == [] && camera2Points == []
    {
      DefaultReferencesAreChannels();
      referenceColors := new int[6, 3]((f, k) requires 0 <= f < 6 && 0 <= k < 3 => DefaultReferences[f][k]);
      camera1Points := [];
      camera2Points := [];
      new;
      assert forall f :: 0 <= f < 6 ==> References()[f] == DefaultReferences[f];
    }

    /** calculateColorDistance: the Manhattan distance from (r, g, b) to
        the reference colour of `face`. */
    function CalculateColorDistance(r: int, g: int, b: int, face: int): int
      requires Valid() && 0 <= face < 6
      reads this, referenceColors
    {
      Abs(referenceColors[face, 0] - r) + Abs(referenceColors[face, 1] - g) + Abs(referenceColors[face, 2] - b)
    }

    /** The distance is never negative and is zero exactly at the reference
        colour itself. */
    lemma DistanceZeroAtReference(r: int, g: int, b: int, face: int)
      requires Valid() && 0 <= face < 6
      ensures CalculateColorDistance(r, g, b, face) >= 0
      ensures CalculateColorDistance(r, g, b, face) == 0 <==>
                referenceColors[face, 0] == r && referenceColors[face, 1] == g && referenceColors[face, 2] == b
    {
    }

    /** The six distances findClosestColor compares. */
    function Distances(r: int, g: int, b: int): (d: seq<int>)
      requires Valid()
      reads this, referenceColors
      ensures |d| == 6 && forall f :: 0 <= f < 6 ==> d[f] == CalculateColorDistance(r, g, b, f)
    {
      [CalculateColorDistance(r, g, b, 0), CalculateColorDistance(r, g, b, 1), CalculateColorDistance(r, g, b, 2),
       CalculateColorDistance(r, g, b, 3), CalculateColorDistance(r, g, b, 4), CalculateColorDistance(r, g, b, 5)]
    }

    /** The index findClosestColor returns. */
    function ClosestColor(r: int, g: int, b: int): (i: int)
      requires Valid()
      reads this, referenceColors
      ensures 0 <= i < 6
    {
      Scan(Distances(r, g, b)).index
    }

    /** findClosestColor: the first reference colour at least distance;
        0 when every distance is at least INT_MAX. */
    method FindClosestColor(r: int, g: int, b: int) returns (closest: int)
      requires Valid()
      ensures closest == ClosestColor(r, g, b)
      ensures 0 <= closest < 6
      ensures (exists f :: 0 <= f < 6 && CalculateColorDistance(r, g, b, f) < IntMax) ==>
                (forall f :: 0 <= f < 6 ==> CalculateColorDistance(r, g, b, closest) <= CalculateColorDistance(r, g, b, f)) &&
                (forall f :: 0 <= f < closest ==> CalculateColorDistance(r, g, b, f) > CalculateColorDistance(r, g, b, closest))
      ensures (forall f :: 0 <= f < 6 ==> CalculateColorDistance(r, g, b, f) >= IntMax) ==> closest == 0
    {
      ghost var d := Distances(r, g, b);
      var minDistance := IntMax;
      closest := 0;
      for i := 0 to 6
        invariant Scan(d[..i]) == Best(closest, minDistance)
      {
        var distance := CalculateColorDistance(r, g, b, i);
        assert d[..i + 1][..i] == d[..i];
        if distance < minDistance {
          minDistance := distance;
          closest := i;
        }
      }
      assert d[..6] == d;
      ScanIsFirstMinimum(d);
    }

    /** The label of one sampled pixel: nearest reference colour, then the
        correction chain. */
    function Classify(px: Bgr): char
      requires Valid()
      reads this, referenceColors
    {
      ApplyColorDisambiguation(ClosestColor(px.r, px.g, px.b), px.r, px.g, px.b)
    }

    /** What detectCube makes of a valid pixel: the correction chain applied
        to the first reference colour at the least distance. When every
        distance reaches INT_MAX no candidate beats the initial minimum and
        the chain starts from face 0. */
    lemma ClassifiedAsNearest(px: Bgr)
      requires Valid()
      ensures Classify(px) in FaceAssign
      ensures (exists f :: 0 <= f < 6 && CalculateColorDistance(px.r, px.g, px.b, f) < IntMax) ==>
        exists i :: 0 <= i < 6
          && (forall f :: 0 <= f < 6 ==>
                CalculateColorDistance(px.r, px.g, px.b, i) <= CalculateColorDistance(px.r, px.g, px.b, f))
          && (forall f :: 0 <= f < i ==>
                CalculateColorDistance(px.r, px.g, px.b, f) > CalculateColorDistance(px.r, px.g, px.b, i))
          && Classify(px) == ApplyColorDisambiguation(i, px.r, px.g, px.b)
      ensures (forall f :: 0 <= f < 6 ==> CalculateColorDistance(px.r, px.g, px.b, f) >= IntMax) ==>
        Classify(px) == ApplyColorDisambiguation(0, px.r, px.g, px.b)
    {
      var d := Distances(px.r, px.g, px.b);
      ScanIsFirstMinimum(d);
      if exists f :: 0 <= f < 6 && CalculateColorDistance(px.r, px.g, px.b, f) < IntMax {
        var i := ClosestColor(px.r, px.g, px.b);
        assert forall f :: 0 <= f < 6 ==> d[f] == CalculateColorDistance(px.r, px.g, px.b, f);
      }
    }

    /** The pixel facet `p` of face `face` is read from: odd faces use
        camera 2 and frame 2, even faces camera 1 and frame 1, and the
        facet's own index selects the point, which must exist and lie
        inside the frame. */
    function PixelAt(frame1: array2<Bgr>, frame2: array2<Bgr>, face: int, p: int): Option<Bgr>
      reads this, frame1, frame2
    {
      var frame := if face % 2 == 1 then frame2 else frame1;
      var points := if face % 2 == 1 then camera2Points else camera1Points;
      if 0 <= p < |points| && InFrame(frame, points[p]) then Some(frame[points[p].y, points[p].x]) else None
    }

    /** What the sampling phase of detectCube leaves at a facet of a state
        filled with `?`: a centre or a hard facet stays `?`, any other facet
        gets the label of its pixel, or stays `?` when it has none. */
    function Sampled(frame1: array2<Bgr>, frame2: array2<Bgr>, p: int): char
      requires Valid()
      reads this, referenceColors, frame1, frame2
    {
      if p % 9 == 4 || IsHardFacet(p) then '?'
      else match PixelAt(frame1, frame2, p / 9, p)
        case None => '?'
        case Some(px) => Classify(px)
    }

    /** The cube state detectCube produces once positions are loaded. */
    function Detected(frame1: array2<Bgr>, frame2: array2<Bgr>, p: int): char
      requires Valid() && 0 <= p < 54
      reads this, referenceColors, frame1, frame2
    {
      if p % 9 == 4 then FaceAssign[p / 9]
      else if IsHardFacet(p) then 'X'
      else Sampled(frame1, frame2, p)
    }

    /** The shape of a detected state: each centre carries its face's
        letter, each corner is X, and every other facet holds the label of
        its pixel, or `?` when it has none; labels are face letters. */
    lemma DetectedShape(frame1: array2<Bgr>, frame2: array2<Bgr>, p: int)
      requires Valid() && 0 <= p < 54
      ensures p % 9 == 4 ==> Detected(frame1, frame2, p) == FaceAssign[p / 9]
      ensures Corner(p % 9) ==> Detected(frame1, frame2, p) == 'X'
      ensures p % 9 != 4 && !Corner(p % 9) && PixelAt(frame1, frame2, p / 9, p).None? ==>
                Detected(frame1, frame2, p) == '?'
      ensures p % 9 != 4 && !Corner(p % 9) && PixelAt(frame1, frame2, p / 9, p).Some? ==>
                Detected(frame1, frame2, p) == Classify(PixelAt(frame1, frame2, p / 9, p).value) &&
                Detected(frame1, frame2, p) in FaceAssign
    {
      HardMeansCorner(p);
    }

    /** The point of a facet is looked up by the facet's index in the
        whole cube, 0 to 53, not by its place in the camera's own list. With
        point lists of at most 27 points each, as loadPositions reads them,
        no facet of faces 3, 4 and 5 (indices 27 to 53) is ever sampled:
        apart from its centre and X corners such a face stays `?`. */
    lemma UpperFacesUnsampled(frame1: array2<Bgr>, frame2: array2<Bgr>, p: int)
      requires Valid() && |camera1Points| <= 27 && |camera2Points| <= 27
      requires 27 <= p < 54 && p % 9 != 4
      ensures Detected(frame1, frame2, p) == if Corner(p % 9) then 'X' else '?'
    {
      HardMeansCorner(p);
    }

    /** The two calls detectCube makes for a valid pixel: nearest reference
        colour, then the correction chain. */
    method ClassifyPixel(pixel: Bgr) returns (finalColor: char)
      requires Valid()
      ensures finalColor == Classify(pixel)
    {
      var closest := FindClosestColor(pixel.r, pixel.g, pixel.b);
      finalColor := ApplyColorDisambiguation(closest, pixel.r, pixel.g, pixel.b);
    }

    /** The camera choice and bounds test of detectCube for one facet. */
    method ReadFacet(frame1: array2<Bgr>, frame2: array2<Bgr>, face: int, facet: int) returns (pixelValid: bool, pixel: Bgr)
      requires 0 <= face < 6 && 0 <= facet < 9
      ensures pixelValid <==> PixelAt(frame1, frame2, face, face * 9 + facet).Some?
      ensures pixelValid ==> pixel == PixelAt(frame1, frame2, face, face * 9 + facet).value
    {
      pixel := Bgr(0, 0, 0);
      pixelValid := false;
      if face % 2 == 1 {
        var pointIndex := face * 9 + facet;
        if pointIndex < |camera2Points| {
          var x, y := camera2Points[pointIndex].x, camera2Points[pointIndex].y;
          if x >= 0 && x < frame2.Length1 && y >= 0 && y < frame2.Length0 {
            pixel := frame2[y, x];
            pixelValid := true;
          }
        }
      } else {
        var pointIndex := face * 9 + facet;
        if pointIndex < |camera1Points| {
          var x, y := camera1Points[pointIndex].x, camera1Points[pointIndex].y;
          if x >= 0 && x < frame1.Length1 && y >= 0 && y < frame1.Length0 {
            pixel := frame1[y, x];
            pixelValid := true;
          }
        }
      }
    }

    /** One pass of the sampling loops of detectCube: facet `facet` of face
        `face` receives its sample; a centre, a hard facet or an unreadable
        point leaves it as it is, and no other facet changes. */
    method SampleFacet(frame1: array2<Bgr>, frame2: array2<Bgr>, cubeState: array<char>, face: int, facet: int)
      requires Valid() && cubeState.Length == 54 && 0 <= face < 6 && 0 <= facet < 9
      requires cubeState[face * 9 + facet] == '?'
      modifies cubeState
      ensures cubeState[face * 9 + facet] == Sampled(frame1, frame2, face * 9 + facet)
      ensures forall p :: 0 <= p < 54 && p != face * 9 + facet ==> cubeState[p] == old(cubeState[p])
    {
      var facetIndex := face * 9 + facet;
      FaceAndLocal(face, facet);
      if facet == 4 || IsHardFacet(facetIndex) {
        return;
      }
      var pixelValid, pixel := ReadFacet(frame1, frame2, face, facet);
      if pixelValid {
        var finalColor := ClassifyPixel(pixel);
        cubeState[facetIndex] := finalColor;
      }
    }

    /** The sampling phase of detectCube, its two nested loops over faces
        and facets. */
    method SampleFacets(frame1: array2<Bgr>, frame2: array2<Bgr>, cubeState: array<char>)
      requires Valid() && cubeState.Length == 54
      requires forall p :: 0 <= p < 54 ==> cubeState[p] == '?'
      modifies cubeState
      ensures forall p :: 0 <= p < 54 ==> cubeState[p] == Sampled(frame1, frame2, p)
    {
      for face := 0 to 6
        invariant forall p :: 0 <= p < 54 ==>
                    cubeState[p] == if p < 9 * face then Sampled(frame1, frame2, p) else '?'
      {
        for facet := 0 to 9
          invariant forall p :: 0 <= p < 54 ==>
                      cubeState[p] == if p < 9 * face + facet then Sampled(frame1, frame2, p) else '?'
        {
          SampleFacet(frame1, frame2, cubeState, face, facet);
        }
      }
    }

    /** The second phase of detectCube: every hard facet still at `?`
        becomes X. */
    method MarkHardFacets(cubeState: array<char>)
      requires cubeState.Length == 54
      modifies cubeState
      ensures forall p :: 0 <= p < 54 ==>
                cubeState[p] == if p in HardFacets && old(cubeState[p]) == '?' then 'X' else old(cubeState[p])
    {
      HardFacetsAreCorners();
      for k := 0 to |HardFacets|
        invariant forall p :: 0 <= p < 54 ==>
                    cubeState[p] == if p in HardFacets[..k] && old(cubeState[p]) == '?' then 'X' else old(cubeState[p])
      {
        var hard := HardFacets[k];
        assert HardFacets[..k + 1] == HardFacets[..k] + [hard];
        if cubeState[hard] == '?' {
          cubeState[hard] := 'X';
        }
      }
      assert HardFacets[..|HardFacets|] == HardFacets;
    }

    /** The centre assignment of detectCube: the centre of face f gets
        face letter f, and nothing else changes. */
    method PlaceCentres(cubeState: array<char>)
      requires cubeState.Length == 54
      modifies cubeState
      ensures forall p :: 0 <= p < 54 ==>
                cubeState[p] == if p % 9 == 4 then FaceAssign[p / 9] else old(cubeState[p])
    {
      cubeState[4] := FaceAssign[0];
      cubeState[13] := FaceAssign[1];
      cubeState[22] := FaceAssign[2];
      cubeState[31] := FaceAssign[3];
      cubeState[40] := FaceAssign[4];
      cubeState[49] := FaceAssign[5];
      forall p | 0 <= p < 54 && p % 9 == 4
        ensures p == 4 || p == 13 || p == 22 || p == 31 || p == 40 || p == 49
      {
      }
    }

    /** The state detectCube leaves: the centres of a sampled state given
        their face letters, then every hard facet still at `?` (which the
        sampling leaves at every corner) marked X, is the detected state,
        with X at every corner. */
    lemma DetectedFromSampled(frame1: array2<Bgr>, frame2: array2<Bgr>, sampled: seq<char>, final: seq<char>)
      requires Valid() && |sampled| == 54 && |final| == 54
      requires forall p :: 0 <= p < 54 ==> sampled[p] == Sampled(frame1, frame2, p)
      requires forall p :: 0 <= p < 54 ==>
                 var centred := if p % 9 == 4 then FaceAssign[p / 9] else sampled[p];
                 final[p] == if p in HardFacets && centred == '?' then 'X' else centred
      ensures forall p :: 0 <= p < 54 ==> final[p] == Detected(frame1, frame2, p)
      ensures forall p :: 0 <= p < 54 && Corner(p % 9) ==> final[p] == 'X'
    {
      HardFacetsAreCorners();
      FaceLettersDistinct();
      forall p | 0 <= p < 54
        ensures IsHardFacet(p) <==> p in HardFacets
      {
        HardMeansCorner(p);
      }
    }

    /** validateCubeConfiguration: each face letter counted over the 54
        facets (other characters are not counted) must occur exactly 9
        times. */
    method ValidateCubeConfiguration(cubeState: array<char>) returns (valid: bool)
      requires cubeState.Length == 54
      ensures valid <==> forall j :: 0 <= j < 6 ==> multiset(cubeState[..])[FaceAssign[j]] == 9
    {
      FaceLettersDistinct();
      var count := new int[6](_ => 0);
      for i := 0 to 54
        invariant forall j :: 0 <= j < 6 ==> count[j] == multiset(cubeState[..i])[FaceAssign[j]]
      {
        var color := cubeState[i];
        var colorIndex := -1;
        var j := 0;
        while j < 6
          invariant 0 <= j <= 6
          invariant colorIndex == -1 && color !in FaceAssign[..j]
        {
          if color == FaceAssign[j] {
            colorIndex := j;
            break;
          }
          j := j + 1;
        }
        assert cubeState[..i + 1] == cubeState[..i] + [color];
        if colorIndex >= 0 {
          count[colorIndex] := count[colorIndex] + 1;
        } else {
          assert FaceAssign[..6] == FaceAssign;
        }
      }
      assert cubeState[..54] == cubeState[..];
      valid := true;
      for i := 0 to 6
        invariant valid <==> forall j :: 0 <= j < i ==> count[j] == 9
      {
        if count[i] != 9 {
          valid := false;
        }
      }
    }

    /** detectCube. Without positions for both cameras it returns 0 and
        leaves the state as it was. Otherwise the state is filled with `?`,
        sampled, given its centres, and its hard facets marked X; the
        result is the validation verdict, which is always 0 because the 24
        corners are never face letters. */
    method DetectCube(frame1: array2<Bgr>, frame2: array2<Bgr>, cubeState: array<char>) returns (result: int)
      requires Valid() && cubeState.Length == 54
      modifies cubeState
      ensures result == 0
      ensures camera1Points == [] || camera2Points == [] ==> cubeState[..] == old(cubeState[..])
      ensures camera1Points != [] && camera2Points != [] ==>
                forall p :: 0 <= p < 54 ==> cubeState[p] == Detected(frame1, frame2, p)
    {
      if |camera1Points| == 0 || |camera2Points| == 0 {
        return 0;
      }
      forall i | 0 <= i < 54 {
        cubeState[i] := '?';
      }
      SampleFacets(frame1, frame2, cubeState);
      ghost var sampled := cubeState[..];
      PlaceCentres(cubeState);
      MarkHardFacets(cubeState);
      DetectedFromSampled(frame1, frame2, sampled, cubeState[..]);
      MarkedCornersFail(cubeState[..]);
      var valid := ValidateCubeConfiguration(cubeState);
      result := if valid then 1 else 0;
    }

    /** The reference colours as loadColorCalibration leaves them. */
    method LoadColorCalibration(file: Option<seq<CalibrationLine>>) returns (loaded: bool)
      requires Valid()
      modifies referenceColors
      ensures loaded <==> file.Some?
      ensures file.None? ==> References() == old(References())
      ensures file.Some? ==> References() == ApplyCalibration(old(References()), file.value)
    {
      if file.None? {
        return false;
      }
      var lines := file.value;
      ghost var start := References();
      var colorIndex := 0;
      var i := 0;
      while i < |lines| && colorIndex < 6
        invariant 0 <= i <= |lines| && colorIndex == 0
        invariant References() == ApplyCalibration(start, lines[..i])
      {
        var line := lines[i];
        assert lines[..i + 1][..i] == lines[..i];
        if line.text == [] || line.text[0] == '#' {
          i := i + 1;
          continue;
        }
        if line.parsed.Some? {
          var e := line.parsed.value;
          var idx := CalibrationSlot(e.colour);
          if idx >= 0 {
            referenceColors[idx, 0] := e.r;
            referenceColors[idx, 1] := e.g;
            referenceColors[idx, 2] := e.b;
          }
        }
        i := i + 1;
      }
      assert lines[..i] == lines;
      return true;
    }
  }

  /** A calibration file that does not set colour `f` leaves its reference
      row as it was. */
  lemma {:induction false} UntouchedReference(refs: seq<seq<int>>, lines: seq<CalibrationLine>, f: int)
    requires 0 <= f < |refs|
    requires forall j :: 0 <= j < |lines| ==> CalibrationTarget(lines[j]).None? || CalibrationTarget(lines[j]).value.0 != f
    ensures ApplyCalibration(refs, lines)[f] == refs[f]
  {
    if lines != [] {
      UntouchedReference(refs, lines[..|lines| - 1], f);
    }
  }

  /** The last recognised calibration line for a colour decides its
      reference row. */
  lemma {:induction false} LastCalibrationWins(refs: seq<seq<int>>, pre: seq<CalibrationLine>, line: CalibrationLine,
                                               post: seq<CalibrationLine>)
    requires |refs| == 6 && CalibrationTarget(line).Some?
    requires forall j :: 0 <= j < |post| ==>
               CalibrationTarget(post[j]).None? || CalibrationTarget(post[j]).value.0 != CalibrationTarget(line).value.0
    ensures var e := line.parsed.value;
            ApplyCalibration(refs, pre + [line] + post)[CalibrationSlot(e.colour)] == [e.r, e.g, e.b]
  {
    var e := line.parsed.value;
    var front := pre + [line];
    assert front[..|front| - 1] == pre;
    CalibrationAppend(refs, front, post);
    UntouchedReference(ApplyCalibration(refs, front), post, CalibrationSlot(e.colour));
  }

  /** Applying `pre + post` is applying `post` after `pre`. */
  lemma {:induction false} CalibrationAppend(refs: seq<seq<int>>, pre: seq<CalibrationLine>, post: seq<CalibrationLine>)
    ensures ApplyCalibration(refs, pre + post) == ApplyCalibration(ApplyCalibration(refs, pre), post)
  {
    if post == [] {
      assert pre + post == pre;
    } else {
      CalibrationAppend(refs, pre, post[..|post| - 1]);
      assert (pre + post)[..|pre + post| - 1] == pre + post[..|post| - 1];
    }
  }

  /** With 8-bit reference colours, as the built-in ones are, no 8-bit
      pixel is further than 765 from any reference colour. */
  lemma DistanceBound(det: ArduinoStyleDetection, px: Bgr, f: int)
    requires det.Valid() && 0 <= f < 6
    requires forall k :: 0 <= k < 3 ==> 0 <= det.referenceColors[f, k] < 256
    ensures det.CalculateColorDistance(px.r, px.g, px.b, f) <= 765
  {
    assert 0 <= det.referenceColors[f, 0] < 256;
    assert 0 <= det.referenceColors[f, 1] < 256;
    assert 0 <= det.referenceColors[f, 2] < 256;
  }

  /** With 8-bit references, as the defaults and any calibration of 8-bit
      samples are, every distance is below INT_MAX, so a valid pixel is
      always classified from its first nearest reference colour. */
  lemma EightBitPixelIsNearest(det: ArduinoStyleDetection, px: Bgr)
    requires det.Valid()
    requires forall f, k :: 0 <= f < 6 && 0 <= k < 3 ==> 0 <= det.referenceColors[f, k] < 256
    ensures exists i ::
              && 0 <= i < 6
              && (forall f :: 0 <= f < 6 ==>
                    det.CalculateColorDistance(px.r, px.g, px.b, i) <= det.CalculateColorDistance(px.r, px.g, px.b, f))
              && (forall f :: 0 <= f < i ==>
                    det.CalculateColorDistance(px.r, px.g, px.b, f) > det.CalculateColorDistance(px.r, px.g, px.b, i))
              && det.Classify(px) == ApplyColorDisambiguation(i, px.r, px.g, px.b)
  {
    DistanceBound(det, px, 0);
    det.ClassifiedAsNearest(px);
  }
}
