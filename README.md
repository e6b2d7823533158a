# Rubik's cube colour detection, modelled in Dafny

The program reads a Rubik's cube with two cameras and turns pixel samples
into a 54-facet cube string. It does this in two independent ways, and
both are modelled here.

- **The HSV lookup-table pipeline (main.cpp).**
  - A dense 180 x 256 x 256 colour table is built from fixed thresholds
    (`init_lut`), or painted from calibrated range rules
    (`load_lut_from_file`).
  - Each camera's 24 calibrated points are sampled through that table
    (`detect_cam_1`, `detect_cam_2`).
  - The 48 samples and six hard-coded centres are laid out as the cube
    string (`generateSolverString`) and translated to face letters
    (`convertToFRUBLD`).
  - `validateCube` checks the colour counts.
  - A second threshold classifier, `findColor`, and the `KEY=value`
    settings reader `loadConfig` are modelled too.
- **The RGB "Arduino-style" detector (arduino_detection.cpp/.h).**
  - Each facet's pixel is matched to the nearest of six reference colours
    by Manhattan distance (`calculateColorDistance`, `findClosestColor`).
  - The match is corrected by a fixed chain of rules
    (`applyColorDisambiguation`).
  - Centres are filled in and the 24 corner ("hard") facets are marked X
    (`detectCube`, `isHardFacet`).
  - The result is checked for nine of each face letter
    (`validateCubeConfiguration`).
  - Reference colours can be recalibrated from a file
    (`loadColorCalibration`).

Where the source changes state in place, the model does too:
- the colour table is a `class` over an `array3`;
- label buffers and the cube state are arrays;
- the detector is a `class` whose reference colours are an `array2`.

Each such method is proved against a specification function of its inputs
or old state. The properties the program relies on are proved about those
functions, among them:
- the order in which the table rules take precedence;
- the red hue wrap-around;
- the "last rule wins" behaviour of both calibration files and of the
  settings file;
- the solved-cube round trip through generateSolverString and
  convertToFRUBLD;
- the redundancy of validateCube's N test;
- the fact that detectCube can never report success.

Modules:
- `Wrappers` (Option);
- `Frames` (points, 8-bit channels, BGR pixels, frame bounds);
- `Counting` (counting characters of a string);
- `ColorLut` (the table and both threshold classifiers);
- `Sampling` (the camera sampling loop);
- `SolverString` (string layout, translation, validation);
- `Configuration` (the settings file);
- `ArduinoTables` (the constant tables of arduino_detection.h);
- `ArduinoDetection` (the RGB detector).

## Model

| member | source | states |
|---|---|---|
| ColorLut.DefaultLabel | main.cpp:547-581 | init_lut's label for a cell is W exactly in the White band; each colour is chosen exactly when its own band matches and White does not; the label is one of W R O Y G B N |
| ColorLut.ColorTable.constructor | main.cpp:526 | the global table is a fresh 180 x 256 x 256 array of zero characters |
| ColorLut.ColorTable.Init | main.cpp:547-581 | after init_lut every cell of the table holds its first-match threshold label |
| ColorLut.LookupAfterInit | main.cpp:543-581 | after init_lut, find_color_lut returns the first-match label of the pixel, always one of the seven letters |
| ColorLut.FindColor | main.cpp:590-608 | for any three bytes (the hue is not limited to 0..179), findColor tests R, O, Y, G, B, then W: R and G and B exactly in their bands; O and Y only when the earlier band sharing hue 10 or 25 fails; W only when no colour band matches; else N |
| ColorLut.HueCovered | main.cpp:710-713 | a reversed hue range wraps around 179/0 for Red only; for any other colour it covers no hue |
| ColorLut.PaintedLabel | main.cpp:690-722 | after the N reset and the painting of the rules, a cell holds N or the colour of some rule covering it |
| ColorLut.PaintedSnoc | main.cpp:700-722 | painting one more rule repaints exactly the cells it covers with its colour |
| ColorLut.UncoveredCellIsN | main.cpp:692-722 | a cell that no rule covers keeps the N of the memset |
| ColorLut.LastCoveringRuleWins | main.cpp:700-722 | a covered cell holds the colour of the last rule covering it |
| ColorLut.ColorTable.PaintRow | main.cpp:716-718 | the innermost loop writes the rule's colour to cells (h, s, vMin..vMax) and nothing else |
| ColorLut.ColorTable.PaintPlane | main.cpp:714-720 | the saturation and value loops write the colour to cells (h, sMin..sMax, vMin..vMax) and nothing else |
| ColorLut.ColorTable.Fill | main.cpp:692 | the memset sets every cell to the given character |
| ColorLut.ColorTable.PaintRule | main.cpp:710-721 | one line of the range file gives exactly the cells it covers its colour (red wrap included) and leaves the rest unchanged |
| ColorLut.ColorTable.LoadFromFile | main.cpp:690-722 | an unopenable file gives the init_lut table; otherwise every cell holds the last covering rule's colour, N if none covers it, provided the saturation and value ranges lie in 0..255 |
| Sampling.SampleAt | main.cpp:637-647 | a point inside the frame reads the table entry of its HSV pixel at row y, column x; a point outside gives N |
| Sampling.DetectCamera | main.cpp:628-678 | detect_cam_1 and detect_cam_2: an empty frame leaves every label as it was; otherwise label i becomes the sample of point i for each point, and labels past the point list are untouched |
| SolverString.NonCentre | main.cpp:1121-1123 | entry i of a camera's index table is a position of its three faces that is not a centre |
| SolverString.SlotOf | main.cpp:1121-1127 | every non-centre position of three faces is the table entry of exactly one label slot |
| SolverString.CameraTablesSkipCentres | main.cpp:1121-1127 | both index tables have 24 entries, camera 2's being camera 1's shifted by 27, and they list the non-centre positions in order |
| SolverString.Padded | main.cpp:1130-1137 | the copy loops use a camera's first 24 labels; slots with no label keep the N the string starts with |
| SolverString.LayoutAt | main.cpp:1111-1148 | the cube string has 54 characters; positions 4, 13, 22, 31, 40, 49 hold R, G, W, O, B, Y; every other position holds camera 1's label for its slot in 0..26, or camera 2's in 27..53 |
| SolverString.PlaceLabels | main.cpp:1129-1137 | one copy loop writes camera label i to the i-th non-centre position of its three faces and changes nothing else |
| SolverString.PlaceCentres | main.cpp:1140-1146 | the centre writes give face f's centre the f-th centre colour and change nothing else |
| SolverString.GenerateSolverString | main.cpp:1111-1148 | generateSolverString returns exactly the layout described by LayoutAt |
| SolverString.LayoutCount | main.cpp:1111-1148 | each character of the cube string occurs as often as among the padded camera labels and the six centres together |
| SolverString.ConvertToFrubld | main.cpp:1152-1170 | convertToFRUBLD translates each character once, in place on a copy (an O becomes B, never L) |
| SolverString.FaceLetterBijective | main.cpp:1159-1166 | the translation maps the centre colours R G W O B Y to F R U B L D and is one-to-one on the six colours |
| SolverString.FaceStringCount | main.cpp:1152-1170 | on a string of colours, each colour's count passes unchanged to its face letter |
| SolverString.SolvedCubeString | main.cpp:1111-1170 | cameras reading R8 G8 W8 and O8 B8 Y8 give the face string F9 R9 U9 B9 L9 D9 |
| SolverString.CountLabels | main.cpp:1059-1064 | a counting loop adds each label's number of occurrences to its count in the map |
| SolverString.AddCentres | main.cpp:1066-1072 | adding the centres adds one to the count of each of the six centre colours and to no other |
| SolverString.AllNine | main.cpp:1078-1093 | the verdict loop passes exactly when each of W R O Y G B totals 9 |
| SolverString.FullCamerasHaveNoN | main.cpp:1095-1100 | 48 labels with 8 of each colour contain no N |
| SolverString.ValidateCube | main.cpp:1055-1108 | validateCube passes iff each colour occurs 8 times among the 48 labels and none is N; with exactly 48 labels the N test never changes the verdict |
| SolverString.ColoursAreCentres | main.cpp:1066-1077 | the six expected colours are distinct and each is exactly one hard-coded centre |
| SolverString.LayoutColourCount | main.cpp:1111-1148 | a colour with 8 labels among the cameras occurs 9 times in the cube string |
| SolverString.FaceStringLetters | main.cpp:1152-1170 | a string of colours translates to face letters only |
| SolverString.ValidatedStringIsBalanced | main.cpp:1055-1170 | labels that pass validateCube give a face string of face letters only, with each face letter 9 times |
| SolverString.FaceStringSplit | main.cpp:1155-1167 | translation works character by character, so it distributes over concatenation |
| Configuration.Set | main.cpp:973-993 | a recognised key sets its own field of the settings and no other |
| Configuration.RecognisedKeys | main.cpp:973-993 | exactly the ten keys of the settings record are recognised |
| Configuration.Find | main.cpp:964 | line.find('=') gives the first `=`, or none when the line has none |
| Configuration.ParseLine | main.cpp:958-970 | empty lines, `#` lines and lines without `=` are skipped; any other line is the untrimmed key, `=`, and the value, the key holding no `=` |
| Configuration.ApplyLine | main.cpp:958-993 | a skipped line or unknown key leaves the settings unchanged; a known key sets its field to stoi's value, or the load throws when stoi does |
| Configuration.LoadConfig | main.cpp:949-1001 | an unopenable file leaves the defaults; otherwise the lines are applied in order until stoi throws |
| Configuration.NoRecovery | main.cpp:973-993 | once a line has thrown, the whole load has |
| Configuration.OtherLinesKeep | main.cpp:957-993 | lines that do not set a key leave its value as it was |
| Configuration.ApplyAppend | main.cpp:957-993 | loading two pieces of a file in turn is loading the whole |
| Configuration.LastLineWins | main.cpp:957-993 | a later line for the same key overrides an earlier one |
| Configuration.IgnoredLinesKeepDefaults | main.cpp:12-23 | a file of comments, blank lines and unknown keys leaves every setting at its built-in default |
| ArduinoTables.FaceLettersDistinct | arduino_detection.h:22 | face_assign holds six distinct letters U R F D L B, none of them `?` or X |
| ArduinoTables.HardFacetsByFace | arduino_detection.h:25 | hard_facets lists, face by face, the four corners 9f+0, 9f+2, 9f+6, 9f+8 |
| ArduinoTables.HardFacetsOnlyCorners | arduino_detection.h:25 | every hard facet is a corner of a face, and the list is strictly increasing |
| ArduinoTables.CornersAreHard | arduino_detection.h:25 | every corner of every face is in hard_facets |
| ArduinoTables.HardFacetsAreCorners | arduino_detection.h:25 | hard_facets holds exactly the 24 corner facets, in increasing order, and never a centre |
| ArduinoTables.DefaultReferencesAreChannels | arduino_detection.h:12-19 | the six default reference colours are RGB triples of 8-bit channels |
| ArduinoDetection.ScanIsFirstMinimum | arduino_detection.cpp:107-120 | the running-minimum scan ends at the first index of least distance, or at index 0 when no distance is below INT_MAX |
| ArduinoDetection.CalibrationSlot | arduino_detection.cpp:77-85 | W R G O B Y map to reference slots 0 to 5, and every other character to -1 |
| ArduinoDetection.UntouchedReference | arduino_detection.cpp:69-92 | empty, comment, unparsable and unknown-colour lines, and lines for other colours, leave a reference row unchanged |
| ArduinoDetection.LastCalibrationWins | arduino_detection.cpp:75-92 | the last recognised line for a colour decides its reference row |
| ArduinoDetection.CalibrationAppend | arduino_detection.cpp:68-94 | reading two pieces of a file in turn is reading the whole |
| ArduinoDetection.ApplyColorDisambiguation | arduino_detection.cpp:122-172 | for an index in 0..5 the result is always a member of face_assign |
| ArduinoDetection.DisambiguationRules | arduino_detection.cpp:122-172 | R exactly for input 1; U only with r > b, r >= 120 and b >= 180 (after a white/orange match with blue over green, or a green/blue match with green not over blue); F exactly for a green/blue match with g > b; D exactly for a white/orange match with b <= g, or a yellow match, with g < 170 |
| ArduinoDetection.OccursIsIn | arduino_detection.cpp:174-176 | std::find finds the value exactly when it is in the list |
| ArduinoDetection.HardMeansCorner | arduino_detection.cpp:174-176 | isHardFacet holds exactly for the corner facets 0 <= i < 54 with i mod 9 in {0, 2, 6, 8} |
| ArduinoDetection.MarkedCornersFail | arduino_detection.cpp:294-302 | a state whose 24 corners are X cannot have nine of each of the six face letters |
| ArduinoDetection.DistanceBound | arduino_detection.h:12-19 | with 8-bit reference colours, as the defaults are, no 8-bit pixel is further than 765 from a reference |
| ArduinoDetection.ArduinoStyleDetection.constructor | arduino_detection.h:12-40 | a new detector holds the default reference colours and no positions |
| ArduinoDetection.ArduinoStyleDetection.DistanceZeroAtReference | arduino_detection.cpp:100-105 | calculateColorDistance is never negative and is zero exactly at that face's reference triple |
| ArduinoDetection.ArduinoStyleDetection.ClosestColor | arduino_detection.cpp:107-120 | findClosestColor's result is a colour index 0..5 |
| ArduinoDetection.ArduinoStyleDetection.FindClosestColor | arduino_detection.cpp:107-120 | the loop returns an index of least distance, the lowest on ties, and 0 when every distance is at least INT_MAX |
| ArduinoDetection.ArduinoStyleDetection.ClassifiedAsNearest | arduino_detection.cpp:270-277 | a valid pixel is labelled by the correction chain applied to the first reference colour at the least distance; the label is one of the six face letters; when every distance reaches INT_MAX the chain starts from face 0 |
| ArduinoDetection.EightBitPixelIsNearest | arduino_detection.cpp:270-277 | with 8-bit reference colours every valid pixel is labelled from its first nearest reference colour, with no exception |
| ArduinoDetection.ArduinoStyleDetection.SampleFacet | arduino_detection.cpp:232-280 | one pass of the sampling loop writes the facet's sample (centres, hard facets and unreadable points stay `?`) and changes no other facet |
| ArduinoDetection.ArduinoStyleDetection.SampleFacets | arduino_detection.cpp:229-282 | after the sampling loops, every facet of the `?`-filled state holds its sample |
| ArduinoDetection.ArduinoStyleDetection.PlaceCentres | arduino_detection.cpp:284-290 | the centre of face f gets face_assign[f], and nothing else changes |
| ArduinoDetection.ArduinoStyleDetection.MarkHardFacets | arduino_detection.cpp:292-299 | every hard facet still at `?` becomes X, and nothing else changes |
| ArduinoDetection.ArduinoStyleDetection.DetectedFromSampled | arduino_detection.cpp:227-299 | centring a sampled state and marking its hard facets gives the detected state, with X at every corner |
| ArduinoDetection.ArduinoStyleDetection.DetectedShape | arduino_detection.cpp:227-299 | in the detected state, centres hold face_assign of their face and corners hold X; every other facet holds the face letter its pixel is classified as, or `?` when it has no valid pixel |
| ArduinoDetection.ArduinoStyleDetection.UpperFacesUnsampled | arduino_detection.cpp:243-267 | points are looked up by the facet's index in the whole cube, so with at most 27 points per camera every facet of faces 3 to 5 is `?` apart from its centre and X corners |
| ArduinoDetection.ArduinoStyleDetection.ValidateCubeConfiguration | arduino_detection.cpp:186-218 | validateCubeConfiguration passes iff each of U R F D L B occurs exactly 9 times among the 54 facets; other characters are not counted |
| ArduinoDetection.ArduinoStyleDetection.DetectCube | arduino_detection.cpp:220-303 | with no positions for either camera, the state is unchanged and the result is 0; otherwise the state becomes the detected state, and the result is always 0 because the X corners leave no room for nine of each letter |
| ArduinoDetection.ArduinoStyleDetection.LoadColorCalibration | arduino_detection.cpp:57-98 | returns false only for an unopenable file, which leaves the references unchanged; otherwise the references become those the lines set in order; the `< 6` guard never stops the loop |

## Left out

- Camera I/O (the PS3EyeCamera class), the interactive calibration windows, every display and console output, `main` and its menu are not part of this model. Frames are given as arrays of pixels.
- `cv::cvtColor` (BGR to HSV) is a library conversion: detect_cam_1/2 receive the HSV frame. OpenCV's `Mat::empty` is modelled as a frame with no rows or no columns.
- A missing camera (`camera_1 == nullptr`) has the same effect as an empty frame (an early return), so DetectCamera models both with the empty-frame case.
- parallel_benchmark runs the two sampling functions on two threads. They write disjoint buffers, so the model runs them one after the other, and concurrency is not modelled.
- File reading is modelled by its lines:
  - `None` means the file cannot be opened;
  - a range-file line is a pre-parsed `Rule`;
  - a calibration line is its text plus the result of the four stream extractions.
  Stream parsing itself is not modelled. A range-file line whose extraction fails leaves uninitialised variables in the source, so such lines are not modelled.
- `std::stoi` is a parameter `toInt` returning `None` where stoi throws. A throw ends the load (`None`); it is not modelled past that point.
- `load_position` and `loadPositions` (point files) are not modelled. The detector's point lists are fields that callers set, so detectCube is modelled for any lists.
- `inferCornerColor` (a stub returning `?`), the `corner_assign` table and `calibrateColors` are not part of this model.
- Timing (`std::chrono`) is not modelled.
- ArduinoDetection.ArduinoStyleDetection.CalculateColorDistance: no 32-bit overflow; ints are unbounded. With 8-bit pixels and references the distance is at most 765 (DistanceBound).
- ArduinoDetection.ArduinoStyleDetection.FindClosestColor: `INT_MAX` is the constant 2^31 - 1 and ints are unbounded. Distances at or above it are handled as in the source (index 0).
- ColorLut.ColorTable.LoadFromFile: requires each rule's saturation and value ranges to lie in 0..255 when non-empty. The source's loops are not clamped and would write outside the table otherwise.
- Sampling.DetectCamera: requires the point list to be no longer than the label buffer. The source indexes its 24-entry buffer by point number.
- The following members carry no contract of their own, or only a bound; the lemmas and methods named beside each state what they mean:
  - ColorLut.ColorTable.Lookup: LookupAfterInit.
  - ArduinoDetection.Scan: ScanIsFirstMinimum and FindClosestColor.
  - ArduinoDetection.ArduinoStyleDetection.CalculateColorDistance: DistanceZeroAtReference and DistanceBound.
  - ArduinoDetection.Disambiguate: DisambiguationRules and ApplyColorDisambiguation.
  - ArduinoDetection.IsHardFacet: HardMeansCorner (through OccursIsIn).
  - ArduinoDetection.CalibrationTarget and ArduinoDetection.ApplyCalibration: LoadColorCalibration, UntouchedReference, LastCalibrationWins and CalibrationAppend.
  - ArduinoDetection.ArduinoStyleDetection.Classify and ArduinoDetection.ArduinoStyleDetection.ClassifyPixel (whose contract only ties it to Classify): ClassifiedAsNearest and EightBitPixelIsNearest.
  - ArduinoDetection.ArduinoStyleDetection.PixelAt and ArduinoDetection.ArduinoStyleDetection.ReadFacet (whose contract only ties it to PixelAt): DetectedShape, UpperFacesUnsampled and SampleFacet.
  - ArduinoDetection.ArduinoStyleDetection.Sampled and ArduinoDetection.ArduinoStyleDetection.Detected: DetectedShape, UpperFacesUnsampled and DetectCube.
  - SolverString.Layout: LayoutAt, LayoutCount and GenerateSolverString.
  - SolverString.FaceLetter and SolverString.FaceString: FaceLetterBijective, FaceStringCount, FaceStringLetters, FaceStringSplit and ConvertToFrubld.
  - Configuration.Get and Configuration.ApplyLines: RecognisedKeys, Set, LoadConfig and LastLineWins.
