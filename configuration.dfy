/** The camera settings file of the main detector: `KEY=value` lines read
    into the global settings record by loadConfig. Reading the file is
    modelled by its lines (absent when the file cannot be opened), and
    std::stoi by a parameter that yields no number where stoi throws. */
module Configuration {
  import opened Wrappers

  /** The settings record with its built-in defaults. */
  datatype Config = Config(
    camera1Index: int, camera2Index: int,
    cameraWidth: int, cameraHeight: int, cameraFps: int,
    exposure: int, gain: int, brightness: int, contrast: int, saturation: int)

  const Defaults: Config := Config(4, 5, 320, 240, 187, 15, 10, 15, 9, 60)

  /** The keys loadConfig recognises, one per field of the record. */
  const Keys: seq<string> := ["CAMERA_1_INDEX", "CAMERA_2_INDEX", "CAMERA_WIDTH", "CAMERA_HEIGHT",
                              "CAMERA_FPS", "EXPOSURE", "GAIN", "BRIGHTNESS", "CONTRAST", "SATURATION"]

  /** The field a key names, or None for a key loadConfig ignores. */
  function Get(cfg: Config, key: string): Option<int>
  {
    if key == "CAMERA_1_INDEX" then Some(cfg.camera1Index)
    else if key == "CAMERA_2_INDEX" then Some(cfg.camera2Index)
    else if key == "CAMERA_WIDTH" then Some(cfg.cameraWidth)
    else if key == "CAMERA_HEIGHT" then Some(cfg.cameraHeight)
    else if key == "CAMERA_FPS" then Some(cfg.cameraFps)
    else if key == "EXPOSURE" then Some(cfg.exposure)
    else if key == "GAIN" then Some(cfg.gain)
    else if key == "BRIGHTNESS" then Some(cfg.brightness)
    else if key == "CONTRAST" then Some(cfg.contrast)
    else if key == "SATURATION" then Some(cfg.saturation)
    else None
  }

  /** The record with the field named by a recognised key set to `n`: that
      field reads `n` afterwards, every other field is as before. */
  function Set(cfg: Config, key: string, n: int): (r: Config)
    requires key in Keys
    ensures Get(r, key) == Some(n)
    ensures forall other :: other != key ==> Get(r, other) == Get(cfg, other)
  {
    if key == "CAMERA_1_INDEX" then cfg.(camera1Index := n)
    else if key == "CAMERA_2_INDEX" then cfg.(camera2Index := n)
    else if key == "CAMERA_WIDTH" then cfg.(cameraWidth := n)
    else if key == "CAMERA_HEIGHT" then cfg.(cameraHeight := n)
    else if key == "CAMERA_FPS" then cfg.(cameraFps := n)
    else if key == "EXPOSURE" then cfg.(exposure := n)
    else if key == "GAIN" then cfg.(gain := n)
    else if key == "BRIGHTNESS" then cfg.(brightness := n)
    else if key == "CONTRAST" then cfg.(contrast := n)
    else cfg.(saturation := n)
  }

  /** Exactly the keys of Keys are recognised. */
  lemma RecognisedKeys(cfg: Config, key: string)
    ensures Get(cfg, key).Some? <==> key in Keys
  {
    assert Keys[0] == "CAMERA_1_INDEX" && Keys[1] == "CAMERA_2_INDEX" && Keys[2] == "CAMERA_WIDTH";
    assert Keys[3] == "CAMERA_HEIGHT" && Keys[4] == "CAMERA_FPS" && Keys[5] == "EXPOSURE";
    assert Keys[6] == "GAIN" && Keys[7] == "BRIGHTNESS" && Keys[8] == "CONTRAST" && Keys[9] == "SATURATION";
  }

  /** A settings line split at its first `=`. */
  datatype Entry = Entry(key: string, value: string)

  /** The index of the first `c` in `s`, if any. */
  function Find(s: string, c: char): (r: Option<nat>)
    ensures r.None? <==> c !in s
    ensures r.Some? ==> r.value < |s| && s[r.value] == c && c !in s[..r.value]
  {
    if s == [] then None
    else if s[0] == c then Some(0)
    else match Find(s[1..], c)
      case None => None
      case Some(i) => assert s[..i + 1] == [s[0]] + s[1..][..i]; Some(i + 1)
  }

  /** The line handling of loadConfig: an empty line, a line starting with
      `#` and a line without `=` are skipped; any other line is split at its
      first `=` into a key and a value, neither of them trimmed. */
  function ParseLine(line: string): (r: Option<Entry>)
    ensures r.None? <==> line == [] || line[0] == '#' || '=' !in line
    ensures r.Some? ==> line == r.value.key + "=" + r.value.value && '=' !in r.value.key
  {
    if line == [] || line[0] == '#' then None
    else match Find(line, '=')
      case None => None
      case Some(pos) =>
        assert line == line[..pos] + "=" + line[pos + 1..];
        Some(Entry(line[..pos], line[pos + 1..]))
  }

  /** One line applied to the record: None when std::stoi throws on the
      value of a recognised key, which ends the program. Skipped lines and
      unrecognised keys leave the record as it is; a recognised key sets
      its own field and no other. */
  function ApplyLine(cfg: Config, line: string, toInt: string -> Option<int>): (r: Option<Config>)
    ensures ParseLine(line).None? ==> r == Some(cfg)
    ensures ParseLine(line).Some? && ParseLine(line).value.key !in Keys ==> r == Some(cfg)
    ensures ParseLine(line).Some? && ParseLine(line).value.key in Keys ==>
              var e := ParseLine(line).value;
              (r.Some? <==> toInt(e.value).Some?) &&
              (r.Some? ==> Get(r.value, e.key) == toInt(e.value) &&
                           forall other :: other != e.key ==> Get(r.value, other) == Get(cfg, other))
  {
    match ParseLine(line)
    case None => Some(cfg)
    case Some(e) =>
      if e.key !in Keys then Some(cfg)
      else match toInt(e.value)
        case None => None
        case Some(n) => Some(Set(cfg, e.key, n))
  }

  /** The lines applied in order; None once a line throws. */
  function ApplyLines(cfg: Config, lines: seq<string>, toInt: string -> Option<int>): Option<Config>
  {
    if lines == [] then Some(cfg)
    else match ApplyLines(cfg, lines[..|lines| - 1], toInt)
      case None => None
      case Some(c) => ApplyLine(c, lines[|lines| - 1], toInt)
  }

  /** loadConfig: with no file the record keeps its values; otherwise each
      line is applied in turn, and a value stoi cannot convert ends the load
      (None). */
  method LoadConfig(cfg: Config, file: Option<seq<string>>, toInt: string -> Option<int>) returns (r: Option<Config>)
    ensures file.None? ==> r == Some(cfg)
    ensures file.Some? ==> r == ApplyLines(cfg, file.value, toInt)
  {
    if file.None? {
      return Some(cfg);
    }
    var lines := file.value;
    var current := cfg;
    var i := 0;
    while i < |lines|
      invariant 0 <= i <= |lines|
      invariant ApplyLines(cfg, lines[..i], toInt) == Some(current)
    {
      assert lines[..i + 1][..i] == lines[..i];
      var e := ParseLine(lines[i]);
      if e.Some? && e.value.key in Keys {
        var n := toInt(e.value.value);
        if n.None? {
          r := None;
          assert ApplyLines(cfg, lines[..i + 1], toInt) == None;
          NoRecovery(cfg, lines, i + 1, toInt);
          assert lines[..|lines|] == lines;
          return;
        }
        current := Set(current, e.value.key, n.value);
      }
      i := i + 1;
    }
    assert lines[..i] == lines;
    r := Some(current);
  }

  /** Once a line has thrown, the whole load has. */
  lemma {:induction false} NoRecovery(cfg: Config, lines: seq<string>, k: nat, toInt: string -> Option<int>)
    requires k <= |lines| && ApplyLines(cfg, lines[..k], toInt) == None
    ensures ApplyLines(cfg, lines, toInt) == None
    decreases |lines| - k
  {
    if k < |lines| {
      assert lines[..k + 1][..k] == lines[..k];
      NoRecovery(cfg, lines, k + 1, toInt);
    } else {
      assert lines[..k] == lines;
    }
  }

  /** Lines that do not set `key` leave it as it was, as long as the load
      does not throw. */
  lemma {:induction false} OtherLinesKeep(cfg: Config, lines: seq<string>, key: string, toInt: string -> Option<int>)
    requires forall j :: 0 <= j < |lines| ==> ParseLine(lines[j]).None? || ParseLine(lines[j]).value.key != key
    requires ApplyLines(cfg, lines, toInt).Some?
    ensures Get(ApplyLines(cfg, lines, toInt).value, key) == Get(cfg, key)
  {
    if lines != [] {
      var init := lines[..|lines| - 1];
      OtherLinesKeep(cfg, init, key, toInt);
    }
  }

  /** Applying `pre + post` is applying `post` to the result of `pre`. */
  lemma {:induction false} ApplyAppend(cfg: Config, pre: seq<string>, post: seq<string>, toInt: string -> Option<int>)
    requires ApplyLines(cfg, pre, toInt).Some?
    ensures ApplyLines(cfg, pre + post, toInt) == ApplyLines(ApplyLines(cfg, pre, toInt).value, post, toInt)
  {
    if post == [] {
      assert pre + post == pre;
    } else {
      var init := post[..|post| - 1];
      ApplyAppend(cfg, pre, init, toInt);
      assert (pre + post)[..|pre + post| - 1] == pre + init;
    }
  }

  /** The last line that sets a recognised key decides its value: whatever
      came before, and whatever lines for other keys (or skipped lines)
      come after. */
  lemma LastLineWins(cfg: Config, pre: seq<string>, line: string, post: seq<string>, toInt: string -> Option<int>)
    requires ParseLine(line).Some? && ParseLine(line).value.key in Keys
    requires forall j :: 0 <= j < |post| ==>
               ParseLine(post[j]).None? || ParseLine(post[j]).value.key != ParseLine(line).value.key
    requires ApplyLines(cfg, pre + [line] + post, toInt).Some?
    ensures Get(ApplyLines(cfg, pre + [line] + post, toInt).value, ParseLine(line).value.key)
         == toInt(ParseLine(line).value.value)
  {
    var e := ParseLine(line).value;
    var front := pre + [line];
    assert front[..|front| - 1] == pre;
    if ApplyLines(cfg, front, toInt).None? {
      assert front == (pre + [line] + post)[..|front|];
      NoRecovery(cfg, pre + [line] + post, |front|, toInt);
    }
    ApplyAppend(cfg, front, post, toInt);
    OtherLinesKeep(ApplyLines(cfg, front, toInt).value, post, e.key, toInt);
  }

  /** A file of skipped lines and unrecognised keys only leaves every
      setting at its default. */
  lemma {:induction false} IgnoredLinesKeepDefaults(lines: seq<string>, toInt: string -> Option<int>)
    requires forall j :: 0 <= j < |lines| ==> ParseLine(lines[j]).None? || ParseLine(lines[j]).value.key !in Keys
    ensures ApplyLines(Defaults, lines, toInt) == Some(Defaults)
  {
    if lines != [] {
      IgnoredLinesKeepDefaults(lines[..|lines| - 1], toInt);
    }
  }
}
