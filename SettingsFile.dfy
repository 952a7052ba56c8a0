/**
 * The settings file of the Control Shell: a flat text file of `key=value`
 * lines with the four keys driver_path, desktop_count, mobile_count and
 * headless. Writing emits the four lines in that order; reading keeps only
 * lines holding '=', strips each, splits it at its first '=', lets a later
 * line for the same key win, and then assigns the fields one by one, so an
 * unparsable count stops the reading with the earlier fields already set.
 */
module SettingsFile {
  import opened Optional
  import opened PyText

  /** The values the file persists: the form's driver path, both counts and the headless box. */
  datatype Settings = Settings(driverPath: string, desktopCount: int, mobileCount: int, headless: bool)

  /** The keys, in the order the file is written. */
  const Keys: seq<string> := ["driver_path", "desktop_count", "mobile_count", "headless"]

  /** The form before any file is read: an empty path, 30 desktop and 20 mobile searches, headless on. */
  const Initial := Settings("", 30, 20, true)

  /** Python's str(bool). */
  function BoolText(b: bool): string {
    if b then "True" else "False"
  }

  function Line(key: string, value: string): (l: string)
    ensures |l| == |key| + |value| + 2 && l[..|key| + 1] == key + "=" && l[|l| - 1] == '\n'
  {
    key + "=" + value + "\n"
  }

  // ---------------------------------------------------------------------
  // writing

  /** The lines save_settings writes, one f.write each. */
  function Render(s: Settings): (r: seq<string>)
    ensures |r| == 4
    ensures r[3] == (if s.headless then "headless=True\n" else "headless=False\n")
  {
    [ Line("driver_path", s.driverPath),
      Line("desktop_count", IntToString(s.desktopCount)),
      Line("mobile_count", IntToString(s.mobileCount)),
      Line("headless", BoolText(s.headless)) ]
  }

  /** The whole file as written. */
  function FileText(s: Settings): string {
    Concat(Render(s))
  }

  // ---------------------------------------------------------------------
  // reading

  /** The filter of the comprehension: only lines holding '=' take part. */
  predicate HasEquals(line: string) {
    '=' in line
  }

  /** line.strip().split("=", 1): the part before the first '=' and the rest. */
  function Entry(line: string): (e: (string, string))
    requires HasEquals(line)
    ensures '=' !in e.0
  {
    var k := IndexOf(line, '=');
    StripKeeps(line, StrSpaces, k);
    var t := Strip(line, StrSpaces);
    var i := IndexOf(t, '=');
    (t[..i], t[i + 1..])
  }

  /** Line `line` is an entry for `key`. */
  predicate Defines(line: string, key: string) {
    HasEquals(line) && Entry(line).0 == key
  }

  /** dict(line.strip().split("=", 1) for line in lines if "=" in line): entries added in file order. */
  function SettingsDict(lines: seq<string>): (d: map<string, string>)
    ensures forall k :: k in d ==> '=' !in k
  {
    if lines == [] then map[]
    else
      var d := SettingsDict(lines[..|lines| - 1]);
      var last := lines[|lines| - 1];
      if HasEquals(last) then d[Entry(last).0 := Entry(last).1] else d
  }

  /** settings.get(key, default). */
  function Get(d: map<string, string>, key: string, default: string): string {
    if key in d then d[key] else default
  }

  /** The value the dictionary holds for key, if any. */
  function Lookup(lines: seq<string>, key: string): Option<string> {
    var d := SettingsDict(lines);
    if key in d then Some(d[key]) else None
  }

  /**
   * A key is in the dictionary exactly when some line defines it, and then its
   * value is that of the last line defining it.
   */
  lemma {:induction false} DictLastWins(lines: seq<string>, key: string)
    ensures key in SettingsDict(lines) <==> exists i :: 0 <= i < |lines| && Defines(lines[i], key)
    ensures key in SettingsDict(lines) ==>
      exists i :: 0 <= i < |lines| && Defines(lines[i], key)
        && SettingsDict(lines)[key] == Entry(lines[i]).1
        && forall j :: i < j < |lines| ==> !Defines(lines[j], key)
    decreases |lines|
  {
    if lines != [] {
      var n := |lines|;
      var init := lines[..n - 1];
      var last := lines[n - 1];
      DictLastWins(init, key);
      var d := SettingsDict(init);
      if Defines(last, key) {
        assert SettingsDict(lines)[key] == Entry(lines[n - 1]).1;
      } else {
        assert key in SettingsDict(lines) <==> key in d;
        if key in d {
          var i :| 0 <= i < n - 1 && Defines(init[i], key)
            && d[key] == Entry(init[i]).1
            && forall j :: i < j < n - 1 ==> !Defines(init[j], key);
          assert lines[i] == init[i];
          forall j | i < j < n
            ensures !Defines(lines[j], key)
          {
            if j < n - 1 {
              assert lines[j] == init[j];
            }
          }
          assert SettingsDict(lines)[key] == d[key];
        } else {
          forall i | 0 <= i < n
            ensures !Defines(lines[i], key)
          {
            if i < n - 1 {
              assert lines[i] == init[i];
            }
          }
        }
      }
    }
  }

  /** The dictionary comprehension as the loop Python runs it. */
  method BuildSettingsDict(lines: seq<string>) returns (d: map<string, string>)
    ensures d == SettingsDict(lines)
  {
    d := map[];
    var i := 0;
    while i < |lines|
      invariant 0 <= i <= |lines|
      invariant d == SettingsDict(lines[..i])
    {
      var line := lines[i];
      assert lines[..i + 1][..i] == lines[..i];
      if '=' in line {
        var e := Entry(line);
        d := d[e.0 := e.1];
      }
      i := i + 1;
    }
    assert lines[..|lines|] == lines;
  }

  // ---------------------------------------------------------------------
  // loading

  /** The fields after a load, and the message of the ValueError that stopped it, if one did. */
  datatype Loaded = Loaded(settings: Settings, error: Option<string>)

  /** int(settings.get(key, default)); the default is already an integer. */
  function CountField(d: map<string, string>, key: string, default: int): Option<int> {
    if key in d then ParseInt(d[key]) else Some(default)
  }

  /** The text of int()'s ValueError (Python quotes the value with repr). */
  function BadIntMessage(v: string): string {
    "invalid literal for int() with base 10: '" + v + "'"
  }

  /**
   * load_settings on the lines of an existing file, starting from the form's
   * values `prior`: the path is always assigned, each count only if every
   * count before it parsed, and headless only if both counts parsed.
   */
  function Load(prior: Settings, lines: seq<string>): (r: Loaded)
    ensures r.settings.driverPath == (if Lookup(lines, "driver_path").Some? then Lookup(lines, "driver_path").value else "")
    ensures r.error.Some? ==> Lookup(lines, "desktop_count").Some? || Lookup(lines, "mobile_count").Some?
  {
    LoadFrom(prior, SettingsDict(lines))
  }

  /** The field assignments of load_settings, given the dictionary read from the file. */
  function LoadFrom(prior: Settings, d: map<string, string>): (r: Loaded)
    ensures r.settings.driverPath == Get(d, "driver_path", "")
    ensures r.error.Some? <==> CountField(d, "desktop_count", 30).None? || CountField(d, "mobile_count", 20).None?
    ensures r.error.Some? ==> r.settings.mobileCount == prior.mobileCount && r.settings.headless == prior.headless
    ensures r.error == None ==> r.settings.headless == (Get(d, "headless", "True") == "True")
    ensures r.error == None ==>
      && r.settings.desktopCount == CountField(d, "desktop_count", 30).value
      && r.settings.mobileCount == CountField(d, "mobile_count", 20).value
  {
    var withPath := prior.(driverPath := Get(d, "driver_path", ""));
    var desktop := CountField(d, "desktop_count", 30);
    if desktop.None? then Loaded(withPath, Some(BadIntMessage(d["desktop_count"])))
    else
      var withDesktop := withPath.(desktopCount := desktop.value);
      var mobile := CountField(d, "mobile_count", 20);
      if mobile.None? then Loaded(withDesktop, Some(BadIntMessage(d["mobile_count"])))
      else
        Loaded(withDesktop.(mobileCount := mobile.value,
                            headless := Get(d, "headless", "True") == "True"), None)
  }

  /** A driver path that a save and a load carry unchanged: no line break and no trailing whitespace. */
  predicate PathSurvives(p: string) {
    '\n' !in p && '\r' !in p && (p == [] || !IsSpace(p[|p| - 1]))
  }

  /** A written line `key=value` reads back as the entry (key, value). */
  lemma EntryOfLine(key: string, value: string)
    requires key != [] && !IsSpace(key[0]) && '=' !in key
    requires value == [] || !IsSpace(value[|value| - 1])
    ensures HasEquals(Line(key, value))
    ensures Entry(Line(key, value)) == (key, value)
  {
    var kv := key + "=" + value;
    assert Line(key, value) == kv + "\n";
    assert kv[|key|] == '=';
    StripNewlineTerminated(kv);
    assert kv == key + ['='] + value;
    IndexOfAfter(key, '=', value);
    assert kv[..|key|] == key;
    assert kv[|key| + 1..] == value;
  }

  /** Adding one line to the file adds its entry, if it has one, over the earlier ones. */
  lemma DictSnoc(lines: seq<string>, l: string)
    ensures SettingsDict(lines + [l]) ==
      if HasEquals(l) then SettingsDict(lines)[Entry(l).0 := Entry(l).1] else SettingsDict(lines)
  {
    assert (lines + [l])[..|lines|] == lines;
  }

  /** A key defined by exactly one line has that line's value. */
  lemma LookupUnique(lines: seq<string>, i: nat, key: string)
    requires i < |lines| && Defines(lines[i], key)
    requires forall j :: 0 <= j < |lines| && j != i ==> !Defines(lines[j], key)
    ensures key in SettingsDict(lines) && SettingsDict(lines)[key] == Entry(lines[i]).1
  {
    DictLastWins(lines, key);
  }

  /** The first written line reads back as the driver path entry (likewise for the next three). */
  lemma RenderedEntry0(s: Settings)
    requires PathSurvives(s.driverPath)
    ensures HasEquals(Render(s)[0]) && Entry(Render(s)[0]) == ("driver_path", s.driverPath)
  {
    EntryOfLine("driver_path", s.driverPath);
  }

  lemma RenderedEntry1(s: Settings)
    ensures HasEquals(Render(s)[1]) && Entry(Render(s)[1]) == ("desktop_count", IntToString(s.desktopCount))
  {
    EntryOfLine("desktop_count", IntToString(s.desktopCount));
  }

  lemma RenderedEntry2(s: Settings)
    ensures HasEquals(Render(s)[2]) && Entry(Render(s)[2]) == ("mobile_count", IntToString(s.mobileCount))
  {
    EntryOfLine("mobile_count", IntToString(s.mobileCount));
  }

  lemma RenderedEntry3(s: Settings)
    ensures HasEquals(Render(s)[3]) && Entry(Render(s)[3]) == ("headless", BoolText(s.headless))
  {
    EntryOfLine("headless", BoolText(s.headless));
  }

  /** Four lines with four different keys read back as the dictionary of those four entries. */
  lemma DictOfFour(r: seq<string>, k0: string, v0: string, k1: string, v1: string,
                   k2: string, v2: string, k3: string, v3: string)
    requires |r| == 4
    requires HasEquals(r[0]) && Entry(r[0]) == (k0, v0)
    requires HasEquals(r[1]) && Entry(r[1]) == (k1, v1)
    requires HasEquals(r[2]) && Entry(r[2]) == (k2, v2)
    requires HasEquals(r[3]) && Entry(r[3]) == (k3, v3)
    ensures SettingsDict(r) == map[k0 := v0][k1 := v1][k2 := v2][k3 := v3]
  {
    assert r[..0] == [];
    DictPrefix(r, 0);
    DictPrefix(r, 1);
    DictPrefix(r, 2);
    DictPrefix(r, 3);
    assert r[..4] == r;
  }

  /** The dictionary of the first i + 1 lines adds line i's entry, if it has one, to that of the first i. */
  lemma DictPrefix(lines: seq<string>, i: nat)
    requires i < |lines|
    ensures SettingsDict(lines[..i + 1]) ==
      if HasEquals(lines[i]) then SettingsDict(lines[..i])[Entry(lines[i]).0 := Entry(lines[i]).1]
      else SettingsDict(lines[..i])
  {
    assert lines[..i + 1][..i] == lines[..i];
  }

  /** The lines written for s read back as a dictionary holding exactly its four fields. */
  lemma RenderedDict(s: Settings)
    requires PathSurvives(s.driverPath)
    ensures SettingsDict(Render(s)) == map[
      "driver_path" := s.driverPath,
      "desktop_count" := IntToString(s.desktopCount),
      "mobile_count" := IntToString(s.mobileCount),
      "headless" := BoolText(s.headless)]
  {
    RenderedEntry0(s);
    RenderedEntry1(s);
    RenderedEntry2(s);
    RenderedEntry3(s);
    DictOfFour(Render(s), "driver_path", s.driverPath, "desktop_count", IntToString(s.desktopCount),
      "mobile_count", IntToString(s.mobileCount), "headless", BoolText(s.headless));
  }

  /** A line `key=value` whose key and value hold no line break is one whole line. */
  lemma LineWhole(key: string, value: string)
    requires '\n' !in key && '\r' !in key && '\n' !in value && '\r' !in value
    ensures IsWholeLine(Line(key, value)) && '\r' !in Line(key, value)
  {
    var l := Line(key, value);
    assert l[..|l| - 1] == key + "=" + value;
  }

  /** The first written line is a whole line (likewise for the next three). */
  lemma RenderedLine0(s: Settings)
    requires PathSurvives(s.driverPath)
    ensures IsWholeLine(Render(s)[0]) && '\r' !in Render(s)[0]
  {
    LineWhole("driver_path", s.driverPath);
  }

  lemma RenderedLine1(s: Settings)
    ensures IsWholeLine(Render(s)[1]) && '\r' !in Render(s)[1]
  {
    LineWhole("desktop_count", IntToString(s.desktopCount));
  }

  lemma RenderedLine2(s: Settings)
    ensures IsWholeLine(Render(s)[2]) && '\r' !in Render(s)[2]
  {
    LineWhole("mobile_count", IntToString(s.mobileCount));
  }

  lemma RenderedLine3(s: Settings)
    ensures IsWholeLine(Render(s)[3]) && '\r' !in Render(s)[3]
  {
    LineWhole("headless", BoolText(s.headless));
  }

  /** Every line written for s is one whole line without a carriage return. */
  lemma RenderedLinesWhole(s: Settings)
    requires PathSurvives(s.driverPath)
    ensures forall i :: 0 <= i < |Render(s)| ==> IsWholeLine(Render(s)[i]) && '\r' !in Render(s)[i]
  {
    var r := Render(s);
    forall i | 0 <= i < |r|
      ensures IsWholeLine(r[i]) && '\r' !in r[i]
    {
      if i == 0 {
        RenderedLine0(s);
      } else if i == 1 {
        RenderedLine1(s);
      } else if i == 2 {
        RenderedLine2(s);
      } else {
        RenderedLine3(s);
      }
    }
  }

  /** Saving the settings and loading the file restores them exactly, whatever the form held before. */
  lemma LoadRoundTrip(prior: Settings, s: Settings)
    requires PathSurvives(s.driverPath)
    ensures Load(prior, ReadLines(FileText(s))) == Loaded(s, None)
  {
    RenderedLinesWhole(s);
    ReadLinesConcat(Render(s));
    RenderedDict(s);
    LoadRendered(prior, s);
  }

  /** The dictionary of a written file assigns every field its saved value. */
  lemma LoadRendered(prior: Settings, s: Settings)
    ensures LoadFrom(prior, map[
      "driver_path" := s.driverPath,
      "desktop_count" := IntToString(s.desktopCount),
      "mobile_count" := IntToString(s.mobileCount),
      "headless" := BoolText(s.headless)]) == Loaded(s, None)
  {
    var d := map[
      "driver_path" := s.driverPath,
      "desktop_count" := IntToString(s.desktopCount),
      "mobile_count" := IntToString(s.mobileCount),
      "headless" := BoolText(s.headless)];
    CountFieldOf(d, "desktop_count", 30, s.desktopCount);
    CountFieldOf(d, "mobile_count", 20, s.mobileCount);
  }

  /** A count field holding the text of n reads back as n. */
  lemma CountFieldOf(d: map<string, string>, key: string, default: int, n: int)
    requires key in d && d[key] == IntToString(n)
    ensures CountField(d, key, default) == Some(n)
  {
    ParseIntRoundTrip(n);
  }

  /** A written file is never empty: it holds the four lines. */
  lemma FileTextNotEmpty(s: Settings)
    ensures FileText(s) != ""
  {
    var r := Render(s);
    assert Concat(r) == r[0] + Concat(r[1..]);
    assert |r[0]| >= 2;
  }

  /** A file emptied by a save that raised before its first write loads as the defaults, whatever the form held. */
  lemma LoadEmptied(prior: Settings)
    ensures Load(prior, ReadLines("")) == Loaded(Initial, None)
  {
    assert ReadLines("") == [] by {
      assert TranslateNewlines("") == "";
    }
    LoadDefaults(prior, []);
  }

  /** With none of the four keys in the file, every field takes its default: "", 30, 20, True. */
  lemma LoadDefaults(prior: Settings, lines: seq<string>)
    requires forall i :: 0 <= i < |lines| && HasEquals(lines[i]) ==> Entry(lines[i]).0 !in Keys
    ensures Load(prior, lines) == Loaded(Settings("", 30, 20, true), None)
  {
    DictLastWins(lines, "driver_path");
    DictLastWins(lines, "desktop_count");
    DictLastWins(lines, "mobile_count");
    DictLastWins(lines, "headless");
  }

  /** headless is set to true exactly when its entry is absent or is the string "True". */
  lemma LoadHeadless(prior: Settings, lines: seq<string>)
    requires Load(prior, lines).error == None
    ensures Load(prior, lines).settings.headless
      <==> Lookup(lines, "headless") == None || Lookup(lines, "headless") == Some("True")
  {
  }

  /** An unparsable desktop count stops the load: only the path has been assigned. */
  lemma LoadStopsAtDesktop(prior: Settings, lines: seq<string>, v: string)
    requires Lookup(lines, "desktop_count") == Some(v) && ParseInt(v) == None
    ensures Load(prior, lines) == Loaded(
      prior.(driverPath := Get(SettingsDict(lines), "driver_path", "")),
      Some(BadIntMessage(v)))
  {
  }

  /** An unparsable mobile count after a good desktop count: the path and the desktop count are assigned. */
  lemma LoadStopsAtMobile(prior: Settings, lines: seq<string>, v: string)
    requires CountField(SettingsDict(lines), "desktop_count", 30).Some?
    requires Lookup(lines, "mobile_count") == Some(v) && ParseInt(v) == None
    ensures Load(prior, lines) == Loaded(
      prior.(driverPath := Get(SettingsDict(lines), "driver_path", ""),
             desktopCount := CountField(SettingsDict(lines), "desktop_count", 30).value),
      Some(BadIntMessage(v)))
  {
  }

  /**
   * Whether a load fails does not depend on the form's earlier values, and a
   * load that does not fail determines every field; a failed one keeps the
   * earlier mobile count and headless flag.
   */
  lemma LoadOutcome(p1: Settings, p2: Settings, lines: seq<string>)
    ensures Load(p1, lines).error == Load(p2, lines).error
    ensures Load(p1, lines).error == None ==> Load(p1, lines).settings == Load(p2, lines).settings
    ensures Load(p1, lines).error != None ==>
      Load(p1, lines).settings.mobileCount == p1.mobileCount
      && Load(p1, lines).settings.headless == p1.headless
  {
  }
}
