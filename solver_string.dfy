/** Assembly and checking of the 54-character cube string in the main
    detector: generateSolverString lays the 48 sampled labels and the six
    fixed centres out face by face in the order Front, Right, Up, Back, Left,
    Down; convertToFRUBLD turns colour letters into face letters; validateCube
    counts the colours of the 48 samples. */
module SolverString {
  import opened Counting

  /** The fixed centre colours of the faces Front, Right, Up, Back, Left, Down. */
  const CentreColours: string := "RGWOBY"

  /** The colours validateCube expects, in the order it checks them. */
  const Colours: string := "WROYGB"

  /** The face letters convertToFRUBLD produces. */
  const FaceLetters: string := "FRUBLD"

  /** The positions camera 1's 24 labels are written to: faces Front, Right,
      Up without their centres. */
  const Cam1Indices: seq<int> := [0, 1, 2, 3, 5, 6, 7, 8,
                                  9, 10, 11, 12, 14, 15, 16, 17,
                                  18, 19, 20, 21, 23, 24, 25, 26]

  /** The positions camera 2's 24 labels are written to: faces Back, Left,
      Down without their centres. */
  const Cam2Indices: seq<int> := [27, 28, 29, 30, 32, 33, 34, 35,
                                  36, 37, 38, 39, 41, 42, 43, 44,
                                  45, 46, 47, 48, 50, 51, 52, 53]

  /** The position, within one camera's three faces, of that camera's i-th
      label: the i-th index of 0..26 that is not a face centre. */
  function NonCentre(i: int): (p: int)
    requires 0 <= i < 24
    ensures 0 <= p < 27 && p % 9 != 4
  {
    9 * (i / 8) + (if i % 8 < 4 then i % 8 else i % 8 + 1)
  }

  /** The inverse of NonCentre: which label of its camera a non-centre
      position of 0..26 holds. */
  function SlotOf(p: int): (i: int)
    requires 0 <= p < 27 && p % 9 != 4
    ensures 0 <= i < 24 && NonCentre(i) == p
  {
    8 * (p / 9) + (if p % 9 < 4 then p % 9 else p % 9 - 1)
  }

  /** The literal index tables of generateSolverString are exactly the
      non-centre positions of each camera's three faces, in order. */
  lemma CameraTablesSkipCentres()
    ensures |Cam1Indices| == 24 && |Cam2Indices| == 24
    ensures forall i :: 0 <= i < 24 ==> Cam1Indices[i] == NonCentre(i) && Cam2Indices[i] == 27 + NonCentre(i)
  {
    forall i | 0 <= i < 24
      ensures Cam1Indices[i] == NonCentre(i) && Cam2Indices[i] == 27 + NonCentre(i)
    {
      assert i / 8 == 0 || i / 8 == 1 || i / 8 == 2;
      assert 0 <= i % 8 < 8;
    }
  }

  /** A camera's label vector cut or padded with N to its 24 slots: the source
      copies at most 24 labels and leaves N wherever it copied none. */
  function Padded(labels: seq<char>): (p: seq<char>)
    ensures |p| == 24
    ensures forall i :: 0 <= i < 24 ==> p[i] == if i < |labels| then labels[i] else 'N'
  {
    if |labels| >= 24 then labels[..24] else labels + seq(24 - |labels|, _ => 'N')
  }

  /** One face: its eight samples in row-major order with the centre
      inserted at local index 4. */
  function FaceBlock(samples: seq<char>, centre: char): seq<char>
    requires |samples| == 8
  {
    samples[..4] + [centre] + samples[4..]
  }

  /** One camera's three faces. */
  function Side(labels: seq<char>, centres: seq<char>): seq<char>
    requires |labels| == 24 && |centres| == 3
  {
    FaceBlock(labels[..8], centres[0]) + FaceBlock(labels[8..16], centres[1]) + FaceBlock(labels[16..], centres[2])
  }

  /** The cube string generateSolverString returns, as a layout of faces. */
  function Layout(cam1: seq<char>, cam2: seq<char>): seq<char>
  {
    Side(Padded(cam1), CentreColours[..3]) + Side(Padded(cam2), CentreColours[3..])
  }

  lemma SideAt(labels: seq<char>, centres: seq<char>, q: int)
    requires |labels| == 24 && |centres| == 3 && 0 <= q < 27
    ensures |Side(labels, centres)| == 27
    ensures Side(labels, centres)[q] == if q % 9 == 4 then centres[q / 9] else labels[SlotOf(q)]
  {
    var b0, b1, b2 := FaceBlock(labels[..8], centres[0]), FaceBlock(labels[8..16], centres[1]), FaceBlock(labels[16..], centres[2]);
    assert Side(labels, centres) == b0 + b1 + b2;
    if q < 9 {
      assert Side(labels, centres)[q] == b0[q];
    } else if q < 18 {
      assert Side(labels, centres)[q] == b1[q - 9];
    } else {
      assert Side(labels, centres)[q] == b2[q - 18];
    }
  }

  /** Where every character of the cube string comes from: positions 4, 13,
      22, 31, 40, 49 hold the centres R, G, W, O, B, Y; every other position
      of 0..26 holds the camera-1 label of its slot and every other position
      of 27..53 the camera-2 label of its slot, N when that camera has no
      such label. */
  lemma {:induction false} LayoutAt(cam1: seq<char>, cam2: seq<char>, p: int)
    requires 0 <= p < 54
    ensures |Layout(cam1, cam2)| == 54
    ensures p % 9 == 4 ==> Layout(cam1, cam2)[p] == CentreColours[p / 9]
    ensures p % 9 != 4 && p < 27 ==> Layout(cam1, cam2)[p] == Padded(cam1)[SlotOf(p)]
    ensures p % 9 != 4 && p >= 27 ==> Layout(cam1, cam2)[p] == Padded(cam2)[SlotOf(p - 27)]
  {
    SideAt(Padded(cam1), CentreColours[..3], if p < 27 then p else 0);
    SideAt(Padded(cam2), CentreColours[3..], if p < 27 then 0 else p - 27);
  }

  lemma FaceBlockCount(samples: seq<char>, centre: char, c: char)
    requires |samples| == 8
    ensures multiset(FaceBlock(samples, centre))[c] == multiset(samples)[c] + (if c == centre then 1 else 0)
  {
    assert samples == samples[..4] + samples[4..];
  }

  lemma SideCount(labels: seq<char>, centres: seq<char>, c: char)
    requires |labels| == 24 && |centres| == 3
    ensures multiset(Side(labels, centres))[c] == multiset(labels)[c] + multiset(centres)[c]
  {
    var l0, l1, l2 := labels[..8], labels[8..16], labels[16..];
    var b0, b1, b2 := FaceBlock(l0, centres[0]), FaceBlock(l1, centres[1]), FaceBlock(l2, centres[2]);
    assert multiset(labels)[c] == multiset(l0)[c] + multiset(l1)[c] + multiset(l2)[c] by {
      assert labels == l0 + l1 + l2;
    }
    assert multiset(centres)[c] == (if c == centres[0] then 1 else 0) + (if c == centres[1] then 1 else 0)
                                   + (if c == centres[2] then 1 else 0) by {
      assert centres == [centres[0]] + [centres[1]] + [centres[2]];
    }
    assert multiset(Side(labels, centres))[c] == multiset(b0)[c] + multiset(b1)[c] + multiset(b2)[c] by {
      assert Side(labels, centres) == b0 + b1 + b2;
    }
    FaceBlockCount(l0, centres[0], c);
    FaceBlockCount(l1, centres[1], c);
    FaceBlockCount(l2, centres[2], c);
  }

  /** Every character of the cube string is a (padded) label of one of the
      cameras or one of the six centres: counts add up. */
  lemma LayoutCount(cam1: seq<char>, cam2: seq<char>, c: char)
    ensures multiset(Layout(cam1, cam2))[c] == multiset(Padded(cam1))[c] + multiset(Padded(cam2))[c] + multiset(CentreColours)[c]
  {
    var s1, s2 := Side(Padded(cam1), CentreColours[..3]), Side(Padded(cam2), CentreColours[3..]);
    assert multiset(Layout(cam1, cam2))[c] == multiset(s1)[c] + multiset(s2)[c] by {
      assert Layout(cam1, cam2) == s1 + s2;
    }
    assert multiset(CentreColours)[c] == multiset(CentreColours[..3])[c] + multiset(CentreColours[3..])[c] by {
      assert CentreColours == CentreColours[..3] + CentreColours[3..];
    }
    SideCount(Padded(cam1), CentreColours[..3], c);
    SideCount(Padded(cam2), CentreColours[3..], c);
  }

  /** Position `p` lies on one of the three faces starting at `base`, is not
      a centre, and its slot is among the first `n`. */
  predicate Placed(p: int, base: int, n: int)
  {
    base <= p < base + 27 && (p - base) % 9 != 4 && SlotOf(p - base) < n
  }

  /** The arithmetic one iteration of either copy loop needs: index table
      entry `i` is the position whose slot is `i`, and it is the one
      position that becomes Placed. */
  lemma PlacedStep(indices: seq<int>, base: int, i: int)
    requires (base == 0 && indices == Cam1Indices) || (base == 27 && indices == Cam2Indices)
    requires 0 <= i < 24
    ensures |indices| == 24 && 0 <= indices[i] < 54
    ensures Placed(indices[i], base, i + 1) && SlotOf(indices[i] - base) == i
    ensures forall p :: 0 <= p < 54 && p != indices[i] ==> (Placed(p, base, i + 1) <==> Placed(p, base, i))
  {
    SlotStep(i);
    assert indices[i] == base + NonCentre(i);
    forall p | 0 <= p < 54 && p != indices[i]
      ensures Placed(p, base, i + 1) <==> Placed(p, base, i)
    {
      if base <= p < base + 27 && (p - base) % 9 != 4 {
        assert SlotOf(p - base) != i;
      }
    }
  }

  /** One copy loop of generateSolverString: the camera's first 24 labels go
      to the non-centre positions of its three faces, starting at `base`
      (0 for camera 1 with Cam1Indices, 27 for camera 2 with Cam2Indices);
      every other position keeps its character. */
  method PlaceLabels(cube: array<char>, indices: seq<int>, base: int, labels: seq<char>)
    requires cube.Length == 54
    requires (base == 0 && indices == Cam1Indices) || (base == 27 && indices == Cam2Indices)
    modifies cube
    ensures forall p :: 0 <= p < 54 ==>
              cube[p] == if Placed(p, base, |labels|) then labels[SlotOf(p - base)] else old(cube[p])
  {
    var i := 0;
    while i < 24 && i < |labels|
      invariant 0 <= i <= 24 && i <= |labels|
      invariant forall p :: 0 <= p < 54 ==>
                  cube[p] == if Placed(p, base, i) then labels[SlotOf(p - base)] else old(cube[p])
    {
      PlacedStep(indices, base, i);
      cube[indices[i]] := labels[i];
      i := i + 1;
    }
    assert forall p :: Placed(p, base, i) <==> Placed(p, base, |labels|);
  }

  /** generateSolverString over the two label vectors. The string starts as 54
      N characters; camera 1's first 24 labels go to Cam1Indices, camera 2's
      to Cam2Indices, and the centres are written last. */
  method GenerateSolverString(cam1: seq<char>, cam2: seq<char>) returns (state: string)
    ensures state == Layout(cam1, cam2)
  {
    var cube := new char[54](_ => 'N');
    PlaceLabels(cube, Cam1Indices, 0, cam1);
    PlaceLabels(cube, Cam2Indices, 27, cam2);
    PlaceCentres(cube);
    state := cube[..];
    forall p | 0 <= p < 54
      ensures state[p] == Layout(cam1, cam2)[p]
    {
      LayoutAt(cam1, cam2, p);
    }
  }

  /** The centre writes of generateSolverString: the centre of face f gets
      centre colour f, and nothing else changes. */
  method PlaceCentres(cube: array<char>)
    requires cube.Length == 54
    modifies cube
    ensures forall p :: 0 <= p < 54 ==> cube[p] == if p % 9 == 4 then CentreColours[p / 9] else old(cube[p])
  {
    cube[4] := 'R';
    cube[13] := 'G';
    cube[22] := 'W';
    cube[31] := 'O';
    cube[40] := 'B';
    cube[49] := 'Y';
    forall p | 0 <= p < 54 && p % 9 == 4
      ensures p == 4 || p == 13 || p == 22 || p == 31 || p == 40 || p == 49
    {
    }
  }

  /** The facts one iteration of either copy loop of GenerateSolverString needs. */
  lemma SlotStep(i: int)
    requires 0 <= i < 24
    ensures |Cam1Indices| == 24 && |Cam2Indices| == 24
    ensures Cam1Indices[i] == NonCentre(i) && Cam2Indices[i] == 27 + NonCentre(i)
    ensures forall p :: 0 <= p < 27 && p % 9 != 4 ==> (SlotOf(p) == i <==> p == NonCentre(i))
    ensures SlotOf(NonCentre(i)) == i
  {
    CameraTablesSkipCentres();
  }

  /** The colour-to-face translation of convertToFRUBLD; every other
      character, N included, is left as it is. */
  function FaceLetter(c: char): char
  {
    match c
    case 'R' => 'F'
    case 'G' => 'R'
    case 'W' => 'U'
    case 'O' => 'B'
    case 'B' => 'L'
    case 'Y' => 'D'
    case _ => c
  }

  /** A string with each character translated once. */
  function FaceString(s: string): (t: string)
    ensures |t| == |s|
  {
    seq(|s|, i requires 0 <= i < |s| => FaceLetter(s[i]))
  }

  /** convertToFRUBLD: a copy of the string whose characters are translated
      in place, one by one. Each character is read before it is written, so
      it is translated exactly once: an O becomes B, never L. */
  method ConvertToFrubld(s: string) returns (t: string)
    ensures t == FaceString(s)
  {
    var a := new char[|s|](i requires 0 <= i < |s| => s[i]);
    for i := 0 to a.Length
      invariant forall k :: 0 <= k < i ==> a[k] == FaceLetter(s[k])
      invariant forall k :: i <= k < a.Length ==> a[k] == s[k]
    {
      a[i] := FaceLetter(a[i]);
    }
    t := a[..];
  }

  /** The translation is one-to-one on the six colours and maps them onto
      the six face letters: R to F, G to R, W to U, O to B, B to L, Y to D. */
  lemma FaceLetterBijective()
    ensures forall j :: 0 <= j < 6 ==> FaceLetter(CentreColours[j]) == FaceLetters[j]
    ensures forall x, c :: x in Colours && c in Colours && FaceLetter(x) == FaceLetter(c) ==> x == c
  {
  }

  /** On a string of colours only, translating keeps every colour's count
      under its face letter. */
  lemma {:induction false} FaceStringCount(s: string, c: char)
    requires forall i :: 0 <= i < |s| ==> s[i] in Colours
    requires c in Colours
    ensures multiset(FaceString(s))[FaceLetter(c)] == multiset(s)[c]
  {
    if s != [] {
      var init := s[..|s| - 1];
      FaceStringCount(init, c);
      assert s == init + [s[|s| - 1]];
      assert FaceString(s) == FaceString(init) + [FaceLetter(s[|s| - 1])];
      FaceLetterBijective();
    }
  }

  /** The count std::map of validateCube: an absent key reads as 0. */
  function Tally(counts: map<char, int>, c: char): int
  {
    if c in counts then counts[c] else 0
  }

  /** One counting loop of validateCube: each label adds one to its own count. */
  method CountLabels(counts: map<char, int>, labels: seq<char>) returns (r: map<char, int>)
    ensures forall c :: Tally(r, c) == Tally(counts, c) + multiset(labels)[c]
  {
    r := counts;
    for i := 0 to |labels|
      invariant forall c :: Tally(r, c) == Tally(counts, c) + multiset(labels[..i])[c]
    {
      r := r[labels[i] := Tally(r, labels[i]) + 1];
      assert labels[..i + 1] == labels[..i] + [labels[i]];
    }
    assert labels[..|labels|] == labels;
  }

  /** The hard-coded centres of validateCube: one more of each colour. */
  method AddCentres(counts: map<char, int>) returns (r: map<char, int>)
    ensures forall c :: Tally(r, c) == Tally(counts, c) + (if c in CentreColours then 1 else 0)
  {
    r := counts;
    r := r['R' := Tally(r, 'R') + 1];
    r := r['G' := Tally(r, 'G') + 1];
    r := r['W' := Tally(r, 'W') + 1];
    r := r['O' := Tally(r, 'O') + 1];
    r := r['B' := Tally(r, 'B') + 1];
    r := r['Y' := Tally(r, 'Y') + 1];
  }

  /** The colour loop of validateCube: every colour must total 9. */
  method AllNine(counts: map<char, int>) returns (ok: bool)
    ensures ok <==> forall j :: 0 <= j < 6 ==> Tally(counts, Colours[j]) == 9
  {
    ok := true;
    for j := 0 to 6
      invariant ok <==> forall k :: 0 <= k < j ==> Tally(counts, Colours[k]) == 9
    {
      if Tally(counts, Colours[j]) != 9 {
        ok := false;
      }
    }
  }

  /** 48 labels with 8 of each colour leave no room for an N. */
  lemma FullCamerasHaveNoN(s: seq<char>)
    requires |s| == 48
    requires forall j :: 0 <= j < 6 ==> multiset(s)[Colours[j]] == 8
    ensures multiset(s)['N'] == 0
  {
    ColoursAreCentres('W');
    NoRoomForOthers(s, Colours, 8);
    assert 'N' !in Colours;
    assert 'N' !in s;
  }

  /** validateCube: counts the 48 sampled labels, adds one hard-coded centre
      of each colour, and passes when each of the six colours totals 9 and no
      label is N. Since each colour then occurs 8 times among exactly 48
      labels, the separate N test can never change the verdict. */
  method ValidateCube(cam1: seq<char>, cam2: seq<char>) returns (valid: bool)
    ensures valid <==> (forall j :: 0 <= j < 6 ==> multiset(cam1 + cam2)[Colours[j]] == 8)
                       && multiset(cam1 + cam2)['N'] == 0
    ensures |cam1| + |cam2| == 48 ==>
              (valid <==> forall j :: 0 <= j < 6 ==> multiset(cam1 + cam2)[Colours[j]] == 8)
  {
    var counts := CountLabels(map[], cam1);
    counts := CountLabels(counts, cam2);
    counts := AddCentres(counts);
    ghost var all := multiset(cam1 + cam2);
    assert forall c :: Tally(counts, c) == all[c] + (if c in CentreColours then 1 else 0);
    assert forall j :: 0 <= j < 6 ==> Colours[j] in CentreColours by {
      assert Colours == ['W', 'R', 'O', 'Y', 'G', 'B'];
      assert CentreColours == ['R', 'G', 'W', 'O', 'B', 'Y'];
    }
    assert 'N' !in CentreColours;

    valid := AllNine(counts);
    if Tally(counts, 'N') > 0 {
      valid := false;
    }

    if |cam1| + |cam2| == 48 && forall j :: 0 <= j < 6 ==> all[Colours[j]] == 8 {
      FullCamerasHaveNoN(cam1 + cam2);
    }
  }

  /** The six colours are distinct letters, and each is one fixed centre. */
  lemma ColoursAreCentres(c: char)
    requires c in Colours
    ensures Distinct(Colours)
    ensures multiset(CentreColours)[c] == 1
  {
    assert Colours == ['W', 'R', 'O', 'Y', 'G', 'B'];
    assert CentreColours == ['R', 'G', 'W', 'O', 'B', 'Y'];
  }

  /** Translating a string of colours gives a string of face letters. */
  lemma FaceStringLetters(s: string)
    requires forall i :: 0 <= i < |s| ==> s[i] in Colours
    ensures forall i :: 0 <= i < |s| ==> FaceString(s)[i] in FaceLetters
  {
    assert FaceLetters == ['F', 'R', 'U', 'B', 'L', 'D'];
    forall i | 0 <= i < |s|
      ensures FaceString(s)[i] in FaceLetters
    {
      assert s[i] in ['W', 'R', 'O', 'Y', 'G', 'B'];
    }
  }

  /** Full cameras with 8 of a colour give 9 of it in the cube string. */
  lemma LayoutColourCount(cam1: seq<char>, cam2: seq<char>, c: char)
    requires |cam1| == 24 && |cam2| == 24 && c in Colours
    requires multiset(cam1 + cam2)[c] == 8
    ensures multiset(Layout(cam1, cam2))[c] == 9
  {
    assert Padded(cam1) == cam1 && Padded(cam2) == cam2;
    LayoutCount(cam1, cam2, c);
    ColoursAreCentres(c);
  }

  /** A passing validateCube verdict carries over to the solver's string:
      with 24 labels per camera, each of the six colours 8 times, the face
      string holds each of F, R, U, B, L, D exactly 9 times and nothing
      else. */
  lemma ValidatedStringIsBalanced(cam1: seq<char>, cam2: seq<char>)
    requires |cam1| == 24 && |cam2| == 24
    requires forall j :: 0 <= j < 6 ==> multiset(cam1 + cam2)[Colours[j]] == 8
    ensures forall j :: 0 <= j < 6 ==> multiset(FaceString(Layout(cam1, cam2)))[FaceLetters[j]] == 9
    ensures forall i :: 0 <= i < 54 ==> FaceString(Layout(cam1, cam2))[i] in FaceLetters
  {
    var state := Layout(cam1, cam2);
    LayoutAt(cam1, cam2, 0);
    forall j | 0 <= j < 6
      ensures multiset(state)[Colours[j]] == 9
    {
      LayoutColourCount(cam1, cam2, Colours[j]);
    }
    ColoursAreCentres('W');
    NoRoomForOthers(state, Colours, 9);
    FaceStringLetters(state);
    FaceLetterBijective();
    forall j | 0 <= j < 6
      ensures multiset(FaceString(state))[FaceLetters[j]] == 9
    {
      FaceStringCount(state, CentreColours[j]);
    }
  }

  /** `n` copies of `c`. */
  function Repeat(c: char, n: nat): (s: string)
    ensures |s| == n && forall i :: 0 <= i < n ==> s[i] == c
  {
    seq(n, _ => c)
  }

  /** A face whose eight samples all show its centre colour is solid. */
  lemma SolidFace(c: char)
    ensures FaceBlock(Repeat(c, 8), c) == Repeat(c, 9)
  {
  }

  /** A camera that sees three solid faces. */
  lemma SolidSide(a: char, b: char, c: char)
    ensures Side(Repeat(a, 8) + Repeat(b, 8) + Repeat(c, 8), [a, b, c])
         == Repeat(a, 9) + Repeat(b, 9) + Repeat(c, 9)
  {
    var labels := Repeat(a, 8) + Repeat(b, 8) + Repeat(c, 8);
    assert labels[..8] == Repeat(a, 8) && labels[8..16] == Repeat(b, 8) && labels[16..] == Repeat(c, 8);
    SolidFace(a);
    SolidFace(b);
    SolidFace(c);
  }

  lemma FaceStringSplit(x: string, y: string)
    ensures FaceString(x + y) == FaceString(x) + FaceString(y)
  {
  }

  lemma FaceStringSolid(c: char, n: nat)
    ensures FaceString(Repeat(c, n)) == Repeat(FaceLetter(c), n)
  {
  }

  /** A solved cube seen by the cameras (camera 1 all Red, Green, White;
      camera 2 all Orange, Blue, Yellow, 8 of each) gives the solved face
      string F9 R9 U9 B9 L9 D9. */
  lemma SolvedCubeString()
    ensures FaceString(Layout(Repeat('R', 8) + Repeat('G', 8) + Repeat('W', 8),
                              Repeat('O', 8) + Repeat('B', 8) + Repeat('Y', 8)))
         == Repeat('F', 9) + Repeat('R', 9) + Repeat('U', 9) + Repeat('B', 9) + Repeat('L', 9) + Repeat('D', 9)
  {
    var cam1 := Repeat('R', 8) + Repeat('G', 8) + Repeat('W', 8);
    var cam2 := Repeat('O', 8) + Repeat('B', 8) + Repeat('Y', 8);
    assert Padded(cam1) == cam1 && Padded(cam2) == cam2;
    assert CentreColours[..3] == ['R', 'G', 'W'] && CentreColours[3..] == ['O', 'B', 'Y'];
    SolidSide('R', 'G', 'W');
    SolidSide('O', 'B', 'Y');
    var r, g, w, o, b, y := Repeat('R', 9), Repeat('G', 9), Repeat('W', 9), Repeat('O', 9), Repeat('B', 9), Repeat('Y', 9);
    assert Layout(cam1, cam2) == r + g + w + o + b + y;
    FaceStringSplit(r + g + w + o + b, y);
    FaceStringSplit(r + g + w + o, b);
    FaceStringSplit(r + g + w, o);
    FaceStringSplit(r + g, w);
    FaceStringSplit(r, g);
    FaceStringSolid('R', 9);
    FaceStringSolid('G', 9);
    FaceStringSolid('W', 9);
    FaceStringSolid('O', 9);
    FaceStringSolid('B', 9);
    FaceStringSolid('Y', 9);
  }
}
