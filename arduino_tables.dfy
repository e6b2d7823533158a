/** The constant tables of the RGB ("Arduino-style") detector: the face
    letter of each reference colour, the corner facets it does not sample,
    and the reference colours it starts with. */
module ArduinoTables {
  import opened Counting

  /** The face letter of reference colour 0..5. */
  const FaceAssign: string := "URFDLB"

  /** The facets the detector does not sample, listed in increasing order. */
  const HardFacets: seq<int> := [0, 2, 6, 8, 9, 11, 15, 17, 18, 20, 24, 26,
                                 27, 29, 33, 35, 36, 38, 42, 44, 45, 47, 51, 53]

  /** The built-in reference colours, as (red, green, blue) rows: white, red,
      green, orange, blue, yellow. */
  const DefaultReferences: seq<seq<int>> := [[255, 255, 255], [255, 0, 0], [0, 255, 0],
                                             [255, 165, 0], [0, 0, 255], [255, 255, 0]]

  /** Local index `k` of a face is one of its four corners. */
  predicate Corner(k: int)
  {
    k == 0 || k == 2 || k == 6 || k == 8
  }

  /** The face letters are six distinct letters, none of them the `?` and
      `X` placeholders the detector writes. */
  lemma FaceLettersDistinct()
    ensures |FaceAssign| == 6 && Distinct(FaceAssign)
    ensures '?' !in FaceAssign && 'X' !in FaceAssign
  {
    assert FaceAssign == ['U', 'R', 'F', 'D', 'L', 'B'];
  }

  /** The local index of the `n`-th corner of a face, in increasing order. */
  function CornerAt(n: int): (k: int)
    requires 0 <= n < 4
    ensures Corner(k)
  {
    [0, 2, 6, 8][n]
  }

  /** Entry `i` of the hard-facet list is corner `i % 4` of face `i / 4`. */
  lemma HardFacetsByFace()
    ensures |HardFacets| == 24
    ensures forall i :: 0 <= i < 24 ==> HardFacets[i] == 9 * (i / 4) + CornerAt(i % 4)
  {
    forall i | 0 <= i < 24
      ensures HardFacets[i] == 9 * (i / 4) + CornerAt(i % 4)
    {
      assert 0 <= i / 4 < 6 && 0 <= i % 4 < 4;
    }
  }

  lemma FaceAndLocal(face: int, k: int)
    requires 0 <= face && 0 <= k < 9
    ensures (9 * face + k) / 9 == face && (9 * face + k) % 9 == k
  {
  }

  /** Every hard facet is a corner of one of the six faces, and the list
      has no repeats. */
  lemma HardFacetsOnlyCorners()
    ensures |HardFacets| == 24
    ensures forall p :: p in HardFacets ==> 0 <= p < 54 && Corner(p % 9)
    ensures forall i, j :: 0 <= i < j < 24 ==> HardFacets[i] < HardFacets[j]
  {
    HardFacetsByFace();
    forall p | p in HardFacets
      ensures 0 <= p < 54 && Corner(p % 9)
    {
      var i :| 0 <= i < 24 && HardFacets[i] == p;
      FaceAndLocal(i / 4, CornerAt(i % 4));
    }
  }

  /** Every corner of every face is a hard facet. */
  lemma CornersAreHard()
    ensures forall p :: 0 <= p < 54 && Corner(p % 9) ==> p in HardFacets
  {
    forall p | 0 <= p < 54 && Corner(p % 9)
      ensures p in HardFacets
    {
      var k := p % 9;
      var slot := if k == 0 then 0 else if k == 2 then 1 else if k == 6 then 2 else 3;
      var i := 4 * (p / 9) + slot;
      assert HardFacets[i] == p;
    }
  }

  /** The hard facets are exactly the four corners of each of the six faces,
      24 distinct indices in increasing order, and none of them is a face
      centre. */
  lemma HardFacetsAreCorners()
    ensures |HardFacets| == 24
    ensures forall i, j :: 0 <= i < j < 24 ==> HardFacets[i] < HardFacets[j]
    ensures forall p :: p in HardFacets <==> 0 <= p < 54 && Corner(p % 9)
    ensures forall p :: p in HardFacets ==> p % 9 != 4
  {
    HardFacetsOnlyCorners();
    CornersAreHard();
  }

  /** Every channel of the built-in reference colours is an 8-bit value. */
  lemma DefaultReferencesAreChannels()
    ensures |DefaultReferences| == 6
    ensures forall f :: 0 <= f < 6 ==> |DefaultReferences[f]| == 3
    ensures forall f, k :: 0 <= f < 6 && 0 <= k < 3 ==> 0 <= DefaultReferences[f][k] < 256
  {
  }
}
