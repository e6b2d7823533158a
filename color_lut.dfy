/** The HSV colour classifier of the main detector: a dense table indexed by
    hue, saturation and value, built either from fixed thresholds (init_lut)
    or from calibrated range rules (load_lut_from_file), and the stand-alone
    threshold classifier findColor. Labels are colour letters: W(hite),
    R(ed), O(range), Y(ellow), G(reen), B(lue) and N for "no colour". */
module ColorLut {
  import opened Wrappers
  import opened Frames

  /** An OpenCV 8-bit hue, 0 to 179. */
  type Hue = h: int | 0 <= h < 180

  /** A pixel after the BGR to HSV conversion. */
  datatype Hsv = Hsv(h: Hue, s: Channel, v: Channel)

  /** A cell index of the 180 x 256 x 256 table. */
  predicate InTable(h: int, s: int, v: int)
  {
    0 <= h < 180 && 0 <= s < 256 && 0 <= v < 256
  }

  // The threshold bands of init_lut, in the order in which it tests them.

  predicate WhiteBand(s: int, v: int) { s <= 50 && v >= 150 }
  predicate RedBand(h: int, s: int, v: int) { (0 <= h <= 8 || 172 <= h <= 179) && s >= 80 && v >= 80 }
  predicate OrangeBand(h: int, s: int, v: int) { 9 <= h <= 20 && s >= 100 && v >= 100 }
  predicate YellowBand(h: int, s: int, v: int) { 21 <= h <= 35 && s >= 80 && v >= 120 }
  predicate GreenBand(h: int, s: int, v: int) { 45 <= h <= 75 && s >= 60 && v >= 60 }
  predicate BlueBand(h: int, s: int, v: int) { 100 <= h <= 125 && s >= 80 && v >= 80 }

  /** The label init_lut stores in cell (h, s, v): the first band that
      matches, White first, else N. The coloured bands do not overlap, so
      apart from White taking precedence the order of the tests is
      immaterial: each colour is chosen exactly when its own band matches
      and the White band does not. */
  function DefaultLabel(h: int, s: int, v: int): (c: char)
    ensures c == 'W' <==> WhiteBand(s, v)
    ensures c == 'R' <==> RedBand(h, s, v) && !WhiteBand(s, v)
    ensures c == 'O' <==> OrangeBand(h, s, v) && !WhiteBand(s, v)
    ensures c == 'Y' <==> YellowBand(h, s, v) && !WhiteBand(s, v)
    ensures c == 'G' <==> GreenBand(h, s, v) && !WhiteBand(s, v)
    ensures c == 'B' <==> BlueBand(h, s, v) && !WhiteBand(s, v)
    ensures c in "WROYGBN"
  {
    if WhiteBand(s, v) then 'W'
    else if RedBand(h, s, v) then 'R'
    else if OrangeBand(h, s, v) then 'O'
    else if YellowBand(h, s, v) then 'Y'
    else if GreenBand(h, s, v) then 'G'
    else if BlueBand(h, s, v) then 'B'
    else 'N'
  }

  // The bands of findColor, which tests the colours first and White last.

  predicate FindRedBand(h: int, s: int, v: int) { (0 <= h <= 10 || 170 <= h <= 179) && s >= 50 && v >= 50 }
  predicate FindOrangeBand(h: int, s: int, v: int) { 10 <= h <= 25 && s >= 120 && v >= 120 }
  predicate FindYellowBand(h: int, s: int, v: int) { 25 <= h <= 35 && s >= 100 && v >= 100 }
  predicate FindGreenBand(h: int, s: int, v: int) { 45 <= h <= 75 && s >= 80 && v >= 80 }
  predicate FindBlueBand(h: int, s: int, v: int) { 100 <= h <= 130 && s >= 100 && v >= 100 }
  predicate FindWhiteBand(s: int, v: int) { s <= 100 && v >= 100 }

  /** findColor: the first matching band in the order R, O, Y, G, B, W, else
      N. It reads the three bytes of a pixel, so its hue may be any byte,
      not only an OpenCV hue. Its Red and Orange bands share hue 10 and its
      Orange and Yellow bands share hue 25, so there the earlier band wins;
      White is chosen only when no colour band matches. */
  function FindColor(h: Channel, s: Channel, v: Channel): (c: char)
    ensures c == 'R' <==> FindRedBand(h, s, v)
    ensures c == 'O' <==> FindOrangeBand(h, s, v) && !FindRedBand(h, s, v)
    ensures c == 'Y' <==> FindYellowBand(h, s, v) && !FindOrangeBand(h, s, v)
    ensures c == 'G' <==> FindGreenBand(h, s, v)
    ensures c == 'B' <==> FindBlueBand(h, s, v)
    ensures c == 'W' <==> FindWhiteBand(s, v) && !FindRedBand(h, s, v)
                           && !FindOrangeBand(h, s, v) && !FindYellowBand(h, s, v)
                           && !FindGreenBand(h, s, v) && !FindBlueBand(h, s, v)
    ensures c in "ROYGBWN"
  {
    if FindRedBand(h, s, v) then 'R'
    else if FindOrangeBand(h, s, v) then 'O'
    else if FindYellowBand(h, s, v) then 'Y'
    else if FindGreenBand(h, s, v) then 'G'
    else if FindBlueBand(h, s, v) then 'B'
    else if FindWhiteBand(s, v) then 'W'
    else 'N'
  }

  /** One calibrated line of the range file: a colour letter and inclusive
      hue, saturation and value ranges. */
  datatype Rule = Rule(color: char, hMin: int, hMax: int, sMin: int, sMax: int, vMin: int, vMax: int)

  /** A Red rule whose hue range is written across 179/0. */
  predicate RedWrap(r: Rule)
  {
    r.color == 'R' && r.hMin > r.hMax
  }

  /** The hue test of load_lut_from_file. A reversed range means "wraps
      around" for Red only; for any other colour it covers no hue. */
  predicate HueCovered(r: Rule, h: int)
    ensures r.hMin > r.hMax && r.color != 'R' ==> !HueCovered(r, h)
  {
    if RedWrap(r) then h >= r.hMin || h <= r.hMax else r.hMin <= h && h <= r.hMax
  }

  /** The rule paints cell (h, s, v). */
  predicate Covers(r: Rule, h: int, s: int, v: int)
  {
    HueCovered(r, h) && r.sMin <= s <= r.sMax && r.vMin <= v <= r.vMax
  }

  /** The saturation and value loops of load_lut_from_file are not clamped:
      a non-empty range must lie inside 0..255 for the writes to stay inside
      the table. The hue loop is clamped to 0..179 by construction. */
  predicate WithinTable(r: Rule)
  {
    && (r.sMin <= r.sMax ==> 0 <= r.sMin && r.sMax < 256)
    && (r.vMin <= r.vMax ==> 0 <= r.vMin && r.vMax < 256)
  }

  /** The label of cell (h, s, v) after painting `rules` in order over an
      all-N table: the colour of the last rule covering the cell, N if none
      does. Whatever it is, it is N or the colour of a rule covering the cell. */
  function PaintedLabel(rules: seq<Rule>, h: int, s: int, v: int): (c: char)
    ensures c == 'N' || exists i :: 0 <= i < |rules| && Covers(rules[i], h, s, v) && rules[i].color == c
  {
    if rules == [] then 'N'
    else
      var last := rules[|rules| - 1];
      if Covers(last, h, s, v) then last.color
      else
        var c := PaintedLabel(rules[..|rules| - 1], h, s, v);
        assert c != 'N' ==> exists i :: 0 <= i < |rules| - 1 && Covers(rules[i], h, s, v) && rules[i].color == c;
        c
  }

  /** Appending a rule repaints exactly the cells it covers. */
  lemma PaintedSnoc(rules: seq<Rule>, r: Rule)
    ensures forall h, s, v :: PaintedLabel(rules + [r], h, s, v)
                              == if Covers(r, h, s, v) then r.color else PaintedLabel(rules, h, s, v)
  {
    assert (rules + [r])[..|rules|] == rules;
  }

  /** A cell that no rule covers keeps the N of the initial fill. */
  lemma {:induction false} UncoveredCellIsN(rules: seq<Rule>, h: int, s: int, v: int)
    requires forall i :: 0 <= i < |rules| ==> !Covers(rules[i], h, s, v)
    ensures PaintedLabel(rules, h, s, v) == 'N'
  {
    if rules != [] {
      UncoveredCellIsN(rules[..|rules| - 1], h, s, v);
    }
  }

  /** Later rules win: a cell holds the colour of the last rule covering it. */
  lemma {:induction false} LastCoveringRuleWins(rules: seq<Rule>, i: nat, h: int, s: int, v: int)
    requires i < |rules| && Covers(rules[i], h, s, v)
    requires forall j :: i < j < |rules| ==> !Covers(rules[j], h, s, v)
    ensures PaintedLabel(rules, h, s, v) == rules[i].color
  {
    if i < |rules| - 1 {
      LastCoveringRuleWins(rules[..|rules| - 1], i, h, s, v);
    }
  }

  /** The colour table (the global `color_lut`). */
  class ColorTable {
    const table: array3<char>

    ghost predicate Valid()
    {
      table.Length0 == 180 && table.Length1 == 256 && table.Length2 == 256
    }

    /** The table as a zero-initialised static array. */
    constructor ()
      ensures Valid() && fresh(table)
      ensures forall h, s, v :: InTable(h, s, v) ==> table[h, s, v] == 0 as char
    {
      table := new char[180, 256, 256]((h, s, v) => 0 as char);
    }

    /** find_color_lut: the label stored for a pixel. */
    function Lookup(p: Hsv): char
      requires Valid()
      reads table
    {
      table[p.h, p.s, p.v]
    }

    /** init_lut: every cell receives the first-match threshold label. */
    method Init()
      requires Valid()
      modifies table
      ensures forall h, s, v :: InTable(h, s, v) ==> table[h, s, v] == DefaultLabel(h, s, v)
    {
      for h := 0 to 180
        invariant forall h', s, v :: InTable(h', s, v) && h' < h ==> table[h', s, v] == DefaultLabel(h', s, v)
      {
        for s := 0 to 256
          invariant forall h', s', v :: InTable(h', s', v) && (h' < h || (h' == h && s' < s))
                      ==> table[h', s', v] == DefaultLabel(h', s', v)
        {
          for v := 0 to 256
            invariant forall h', s', v' :: InTable(h', s', v') && (h' < h || (h' == h && s' < s) || (h' == h && s' == s && v' < v))
                        ==> table[h', s', v'] == DefaultLabel(h', s', v')
          {
            table[h, s, v] := DefaultLabel(h, s, v);
          }
        }
      }
    }

    /** The innermost loop of a rule: cells (h, s, vLo..vHi) receive `c`. */
    method PaintRow(h: int, s: int, vLo: int, vHi: int, c: char)
      requires Valid() && 0 <= h < 180 && 0 <= s < 256
      requires vLo <= vHi ==> 0 <= vLo && vHi < 256
      modifies table
      ensures forall h', s', v' :: InTable(h', s', v') ==>
                table[h', s', v'] == if h' == h && s' == s && vLo <= v' <= vHi then c else old(table[h', s', v'])
    {
      var v := vLo;
      while v <= vHi
        invariant vLo <= v <= if vLo <= vHi then vHi + 1 else vLo
        invariant forall h', s', v' :: InTable(h', s', v') ==>
                    table[h', s', v'] == if h' == h && s' == s && vLo <= v' < v then c else old(table[h', s', v'])
      {
        table[h, s, v] := c;
        v := v + 1;
      }
    }

    /** The two inner loops of a rule: cells (h, sLo..sHi, vLo..vHi) receive `c`. */
    method PaintPlane(h: int, sLo: int, sHi: int, vLo: int, vHi: int, c: char)
      requires Valid() && 0 <= h < 180
      requires sLo <= sHi ==> 0 <= sLo && sHi < 256
      requires vLo <= vHi ==> 0 <= vLo && vHi < 256
      modifies table
      ensures forall h', s', v' :: InTable(h', s', v') ==>
                table[h', s', v'] == if h' == h && sLo <= s' <= sHi && vLo <= v' <= vHi then c else old(table[h', s', v'])
    {
      var s := sLo;
      while s <= sHi
        invariant sLo <= s <= if sLo <= sHi then sHi + 1 else sLo
        invariant forall h', s', v' :: InTable(h', s', v') ==>
                    table[h', s', v'] == if h' == h && sLo <= s' < s && vLo <= v' <= vHi then c else old(table[h', s', v'])
      {
        PaintRow(h, s, vLo, vHi, c);
        s := s + 1;
      }
    }

    /** The `memset` that opens load_lut_from_file: every cell becomes `c`. */
    method Fill(c: char)
      requires Valid()
      modifies table
      ensures forall h, s, v :: InTable(h, s, v) ==> table[h, s, v] == c
    {
      for h := 0 to 180
        invariant forall h', s, v :: InTable(h', s, v) && h' < h ==> table[h', s, v] == c
      {
        PaintPlane(h, 0, 255, 0, 255, c);
      }
    }

    /** One rule of load_lut_from_file: the cells it covers receive its colour,
        every other cell is unchanged. */
    method PaintRule(r: Rule)
      requires Valid() && WithinTable(r)
      modifies table
      ensures forall h, s, v :: InTable(h, s, v) ==>
                table[h, s, v] == if Covers(r, h, s, v) then r.color else old(table[h, s, v])
    {
      var redWrap := r.color == 'R' && r.hMin > r.hMax;
      for h := 0 to 180
        invariant forall h', s, v :: InTable(h', s, v) ==>
                    table[h', s, v] == if h' < h && Covers(r, h', s, v) then r.color else old(table[h', s, v])
      {
        var hInRange := if redWrap then h >= r.hMin || h <= r.hMax else h >= r.hMin && h <= r.hMax;
        if hInRange {
          PaintPlane(h, r.sMin, r.sMax, r.vMin, r.vMax, r.color);
        }
      }
    }

    /** load_lut_from_file over the already-parsed range file: `None` when the
        file cannot be opened, which falls back to init_lut. Otherwise the
        table is reset to N and every rule is painted in file order, so a
        cell holds the colour of the last rule covering it, N if none does. */
    method LoadFromFile(rules: Option<seq<Rule>>)
      requires Valid()
      requires rules.Some? ==> forall i :: 0 <= i < |rules.value| ==> WithinTable(rules.value[i])
      modifies table
      ensures rules.None? ==> forall h, s, v :: InTable(h, s, v) ==> table[h, s, v] == DefaultLabel(h, s, v)
      ensures rules.Some? ==> forall h, s, v :: InTable(h, s, v) ==> table[h, s, v] == PaintedLabel(rules.value, h, s, v)
    {
      Fill('N');
      if rules.None? {
        Init();
        return;
      }
      var rs := rules.value;
      for i := 0 to |rs|
        invariant forall h, s, v :: InTable(h, s, v) ==> table[h, s, v] == PaintedLabel(rs[..i], h, s, v)
      {
        PaintRule(rs[i]);
        assert rs[..i + 1] == rs[..i] + [rs[i]];
        PaintedSnoc(rs[..i], rs[i]);
      }
      assert rs[..|rs|] == rs;
    }
  }

  /** find_color_lut after init_lut returns the first-match label, always one
      of the seven letters. */
  lemma LookupAfterInit(t: ColorTable, p: Hsv)
    requires t.Valid()
    requires forall h, s, v :: InTable(h, s, v) ==> t.table[h, s, v] == DefaultLabel(h, s, v)
    ensures t.Lookup(p) == DefaultLabel(p.h, p.s, p.v)
    ensures t.Lookup(p) in "WROYGBN"
  {
    assert InTable(p.h, p.s, p.v);
  }
}
