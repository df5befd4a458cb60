/**
 * What `rsConfigLoad` of src/config.c does as a whole: the order in which it reads
 * directories, files and lines, the defaults it starts from, which assignment
 * wins, and the frame-size check it ends with.
 */
module ConfigLoad {

  import opened Wrappers
  import opened Text
  import opened ConfigSpec
  import opened ConfigSetter
  import opened ConfigProperties

  /** Loading the lines of `a` and then those of `b` is loading those of `a + b`. */
  lemma {:induction false} ApplyLinesAppend(c: Settings, a: seq<string>, b: seq<string>)
    ensures ApplyLines(c, a + b)
      == match ApplyLines(c, a)
         case Err(e) => Err(e)
         case Ok(c1) => ApplyLines(c1, b)
    decreases |a|
  {
    if a == [] {
      assert a + b == b;
    } else {
      assert (a + b)[0] == a[0] && (a + b)[1..] == a[1..] + b;
      match ApplyLine(c, a[0])
      case Err(e) =>
      case Ok(c1) => ApplyLinesAppend(c1, a[1..], b);
    }
  }

  /** Line `line` assigns to field `f`: it is an assignment whose key's table entry is `f`. */
  predicate Targets(line: string, f: Field) {
    var p := ParseLine(line);
    p.Assignment? && ParamIndex(p.key) < |Params| && Params[ParamIndex(p.key)].field == f
  }

  /** A line that does not assign to `f` leaves `f` as it was. */
  lemma LineKeepsField(c: Settings, line: string, f: Field)
    requires !Targets(line, f)
    ensures ApplyLine(c, line).Ok? ==> Get(ApplyLine(c, line).value, f) == Get(c, f)
  {
    var p := ParseLine(line);
    if p.Assignment? && ParamIndex(p.key) < |Params| {
      SetParsed(c, ParamIndex(p.key), p.value);
    }
  }

  /** A line that assigns to `f` leaves in it what the setter makes of its value. */
  lemma LineSetsField(c: Settings, line: string, f: Field)
    requires Targets(line, f)
    ensures ApplyLine(c, line).Ok? <==> Parsed(f, ParseLine(line).value).Some?
    ensures ApplyLine(c, line).Ok? ==>
      Some(Get(ApplyLine(c, line).value, f)) == Parsed(f, ParseLine(line).value)
  {
    SetParsed(c, ParamIndex(ParseLine(line).key), ParseLine(line).value);
  }

  /** Lines none of which assigns to `f` leave `f` as it was. */
  lemma {:induction false} UntouchedFieldKept(c: Settings, lines: seq<string>, f: Field)
    requires forall i :: 0 <= i < |lines| ==> !Targets(lines[i], f)
    ensures ApplyLines(c, lines).Ok? ==> Get(ApplyLines(c, lines).value, f) == Get(c, f)
    decreases |lines|
  {
    if lines != [] {
      LineKeepsField(c, lines[0], f);
      match ApplyLine(c, lines[0])
      case Err(_) =>
      case Ok(c1) => UntouchedFieldKept(c1, lines[1..], f);
    }
  }

  /**
   * The last line that assigns to a field decides its value: whatever came
   * before, a successful load leaves in `f` what the setter made of that line's value.
   */
  lemma LastAssignmentWins(c: Settings, before: seq<string>, line: string, after: seq<string>, f: Field)
    requires Targets(line, f)
    requires forall i :: 0 <= i < |after| ==> !Targets(after[i], f)
    ensures ApplyLines(c, before + [line] + after).Ok? ==>
      Some(Get(ApplyLines(c, before + [line] + after).value, f)) == Parsed(f, ParseLine(line).value)
  {
    ApplyLinesAppend(c, before + [line], after);
    ApplyLinesAppend(c, before, [line]);
    match ApplyLines(c, before)
    case Err(_) =>
    case Ok(c1) =>
      assert ApplyLines(c1, [line]) == ApplyLine(c1, line);
      LineSetsField(c1, line, f);
      match ApplyLine(c1, line)
      case Err(_) =>
      case Ok(c2) => UntouchedFieldKept(c2, after, f);
  }

  /** The lines of the files that open among `dirs`, file after file. */
  function FileLines(files: map<string, string>, dirs: seq<string>): seq<string>
    decreases |dirs|
  {
    if dirs == [] then []
    else (if dirs[0] in files then Split(files[dirs[0]], '\n') else []) + FileLines(files, dirs[1..])
  }

  /**
   * When no file that opens is empty, loading the files of `dirs` is loading all
   * their lines in one sequence: files are read in order and each top to bottom.
   */
  lemma {:induction false} FilesAreTheirLines(c: Settings, dirs: seq<string>, files: map<string, string>)
    requires forall d :: d in files ==> files[d] != []
    ensures ApplyFiles(c, dirs, files) == ApplyLines(c, FileLines(files, dirs))
    decreases |dirs|
  {
    if dirs != [] {
      var own := if dirs[0] in files then Split(files[dirs[0]], '\n') else [];
      ApplyLinesAppend(c, own, FileLines(files, dirs[1..]));
      assert ApplyFile(c, FileIn(files, dirs[0])) == ApplyLines(c, own);
      match ApplyLines(c, own)
      case Err(_) =>
      case Ok(c1) => FilesAreTheirLines(c1, dirs[1..], files);
    }
  }

  /** A file that opens but is empty ends the load, whichever files came before. */
  lemma EmptyFileFatal(c: Settings, before: seq<string>, d: string, after: seq<string>, files: map<string, string>)
    requires d in files && files[d] == []
    requires ApplyFiles(c, before, files).Ok?
    ensures ApplyFiles(c, before + [d] + after, files) == Err(ReadFailed)
  {
    ApplyFilesAppend(c, before + [d], after, files);
    ApplyFilesAppend(c, before, [d], files);
  }

  /** Directories whose file does not open are skipped. */
  lemma {:induction false} NoFilesNoChange(c: Settings, dirs: seq<string>, files: map<string, string>)
    requires forall i :: 0 <= i < |dirs| ==> dirs[i] !in files
    ensures ApplyFiles(c, dirs, files) == Ok(c)
    decreases |dirs|
  {
    if dirs != [] {
      NoFilesNoChange(c, dirs[1..], files);
    }
  }

  /**
   * The search order: every entry of XDG_CONFIG_DIRS from left to right (which,
   * joined with ':', give back the variable), then XDG_CONFIG_HOME, then ".".
   */
  lemma SearchOrder(env: Environment)
    ensures var dirs := SearchDirs(env);
      |dirs| >= 3 && dirs[|dirs| - 1] == "." && dirs[|dirs| - 2] == ConfigHome(env)
      && Join(dirs[..|dirs| - 2], ':') == ConfigDirs(env)
      && forall i :: 0 <= i < |dirs| - 2 ==> ':' !in dirs[i]
  {
    var dirs := SearchDirs(env);
    assert dirs[..|dirs| - 2] == Split(ConfigDirs(env), ':');
    JoinSplit(ConfigDirs(env), ':');
  }

  /** With neither variable set: "/etc/xdg", then "~/.config", then ".". */
  lemma DefaultSearchPath()
    ensures SearchDirs(Environment(None, None)) == ["/etc/xdg", "~/.config", "."]
  {
    NoColon();
  }

  lemma NoColon()
    ensures Split("/etc/xdg", ':') == ["/etc/xdg"]
  {
    assert ':' !in "/etc/xdg";
    assert Find("/etc/xdg", ':') == |"/etc/xdg"|;
  }

  /** The default of table entry `j` is accepted and gives the value `t` holds in its field. */
  predicate DefaultGives(t: Settings, j: nat)
    requires j < |Params|
  {
    Parsed(Params[j].field, Params[j].def) == Some(Get(t, Params[j].field))
  }

  /** `DefaultGives(t, j)` for every entry `j` from `i` on. */
  predicate GivesFrom(t: Settings, i: nat)
    requires i <= |Params|
    decreases |Params| - i
  {
    i == |Params| || (DefaultGives(t, i) && GivesFrom(t, i + 1))
  }

  /**
   * The defaults loop from entry `i` on reaches the record `t` when each of those
   * entries' defaults gives what `t` holds, and every field no later entry names
   * already holds its value in `t`.
   */
  lemma {:induction false} DefaultsReach(c: Settings, t: Settings, i: nat)
    requires i <= |Params|
    requires GivesFrom(t, i)
    requires forall f :: Get(c, f) == Get(t, f) || exists j :: i <= j < |Params| && Params[j].field == f
    ensures ApplyDefaults(c, Params[i..]) == Ok(t)
    decreases |Params| - i
  {
    if i < |Params| {
      var p := Params[i];
      assert DefaultGives(t, i);
      SetParsed(c, i, p.def);
      var c1 := SetValue(c, p.key, p.def).value;
      assert Params[i..][0] == p && Params[i..][1..] == Params[i + 1..];
      forall f
        ensures Get(c1, f) == Get(t, f) || exists j :: i + 1 <= j < |Params| && Params[j].field == f
      {
        if f == p.field {
        } else if Get(c, f) != Get(t, f) {
          var j :| i <= j < |Params| && Params[j].field == f;
          assert j != i;
        }
      }
      DefaultsReach(c1, t, i + 1);
    } else {
      assert Params[i..] == [];
      SettingsByFields(c, t);
    }
  }

  /** Two records that agree on every field are equal. */
  lemma SettingsByFields(a: Settings, b: Settings)
    requires forall f :: Get(a, f) == Get(b, f)
    ensures a == b
  {
    assert Get(a, IntField(OffsetX)) == Get(b, IntField(OffsetX));
    assert Get(a, IntField(OffsetY)) == Get(b, IntField(OffsetY));
    assert Get(a, IntField(Width)) == Get(b, IntField(Width));
    assert Get(a, IntField(Height)) == Get(b, IntField(Height));
    assert Get(a, IntField(Framerate)) == Get(b, IntField(Framerate));
    assert Get(a, IntField(Duration)) == Get(b, IntField(Duration));
    assert Get(a, IntField(CompressQuality)) == Get(b, IntField(CompressQuality));
    assert Get(a, StrField(OutputFile)) == Get(b, StrField(OutputFile));
  }

  /** Every field of the record is named by some entry of the table. */
  lemma EveryFieldListed(c: Settings, t: Settings)
    ensures forall f :: Get(c, f) == Get(t, f) || exists j :: 0 <= j < |Params| && Params[j].field == f
  {
    forall f
      ensures Get(c, f) == Get(t, f) || exists j :: 0 <= j < |Params| && Params[j].field == f
    {
      match f
      case IntField(s) =>
        match s {
          case OffsetX => assert Params[0].field == f;
          case OffsetY => assert Params[1].field == f;
          case Width => assert Params[2].field == f;
          case Height => assert Params[3].field == f;
          case Framerate => assert Params[4].field == f;
          case Duration => assert Params[5].field == f;
          case CompressQuality => assert Params[6].field == f;
        }
      case StrField(s) => assert Params[7].field == f;
    }
  }

  /** A default that spells `n` in decimal is read as `n`. */
  lemma Number(n: nat, text: string)
    requires NatToDigits(n) == text && n <= INT_MAX
    ensures ConfigInt(text) == Ok(n as int32)
  {
    ConfigIntRoundTrip(n as int32);
  }

  /** An integer setter stores what `configInt` reads. */
  lemma ParsedInt(s: IntSlot, value: string, n: int32)
    requires ConfigInt(value) == Ok(n)
    ensures Parsed(IntField(s), value) == Some(IntValue(n))
  {
  }

  lemma WidthParsed()
    ensures Parsed(IntField(Width), "1920") == Some(IntValue(1920))
  {
    Number(1920, "1920");
    ParsedInt(Width, "1920", 1920);
  }

  lemma HeightParsed()
    ensures Parsed(IntField(Height), "1080") == Some(IntValue(1080))
  {
    Number(1080, "1080");
    ParsedInt(Height, "1080", 1080);
  }

  lemma OffsetsDefault(t: Settings)
    requires Get(t, IntField(OffsetX)) == IntValue(0) && Get(t, IntField(OffsetY)) == IntValue(0)
    ensures DefaultGives(t, 0) && DefaultGives(t, 1)
  {
    Number(0, "0");
  }

  lemma WidthDefault(t: Settings)
    requires Get(t, IntField(Width)) == IntValue(1920)
    ensures DefaultGives(t, 2)
  {
    WidthParsed();
    assert Params[2].field == IntField(Width) && Params[2].def == "1920";
  }

  lemma HeightDefault(t: Settings)
    requires Get(t, IntField(Height)) == IntValue(1080)
    ensures DefaultGives(t, 3)
  {
    HeightParsed();
    assert Params[3].field == IntField(Height) && Params[3].def == "1080";
  }

  lemma TimingDefaults(t: Settings)
    requires Get(t, IntField(Framerate)) == IntValue(30) && Get(t, IntField(Duration)) == IntValue(30)
    ensures DefaultGives(t, 4) && DefaultGives(t, 5)
  {
    Number(30, "30");
  }

  lemma QualityDefault(t: Settings)
    requires Get(t, IntField(CompressQuality)) == IntValue(70)
    ensures DefaultGives(t, 6)
  {
    Number(70, "70");
  }

  lemma OutputDefault(t: Settings)
    requires Get(t, StrField(OutputFile)) == StrValue("~/Videos/ReplaySorcery_%F_%H-%M-%S.mp4")
    ensures DefaultGives(t, 7)
  {
  }

  /** The table's defaults reach any record holding their values, whatever the record held before. */
  lemma DefaultsGive(c: Settings, t: Settings)
    requires Get(t, IntField(OffsetX)) == IntValue(0) && Get(t, IntField(OffsetY)) == IntValue(0)
    requires Get(t, IntField(Width)) == IntValue(1920) && Get(t, IntField(Height)) == IntValue(1080)
    requires Get(t, IntField(Framerate)) == IntValue(30) && Get(t, IntField(Duration)) == IntValue(30)
    requires Get(t, IntField(CompressQuality)) == IntValue(70)
    requires Get(t, StrField(OutputFile)) == StrValue("~/Videos/ReplaySorcery_%F_%H-%M-%S.mp4")
    ensures ApplyDefaults(c, Params) == Ok(t)
  {
    OutputDefault(t);
    assert GivesFrom(t, 7);
    QualityDefault(t);
    assert GivesFrom(t, 6);
    TimingDefaults(t);
    assert GivesFrom(t, 5);
    assert GivesFrom(t, 4);
    HeightDefault(t);
    assert GivesFrom(t, 3);
    WidthDefault(t);
    assert GivesFrom(t, 2);
    OffsetsDefault(t);
    assert GivesFrom(t, 1);
    assert GivesFrom(t, 0);
    EveryFieldListed(c, t);
    DefaultsReach(c, t, 0);
    assert Params[0..] == Params;
  }

  /** Every field is set by the defaults loop: from any record it yields `DefaultSettings`. */
  lemma DefaultsFromTable(c: Settings)
    ensures ApplyDefaults(c, Params) == Ok(DefaultSettings)
  {
    DefaultsGive(c, DefaultSettings);
  }

  /** `DefaultSettings` passes the frame-size check: 1920 and 1080 are multiples of 8. */
  lemma DefaultsAligned()
    ensures Aligned(DefaultSettings)
  {
  }

  /** Every load starts from the table's defaults and then reads the search path. */
  lemma LoadFromDefaults(env: Environment, files: map<string, string>)
    ensures LoadSpec(env, files) == CheckFrameSize(ApplyFiles(DefaultSettings, SearchDirs(env), files))
  {
    DefaultsFromTable(Cleared);
  }

  /** With no config file anywhere the load yields exactly the defaults. */
  lemma LoadWithoutFiles(env: Environment, files: map<string, string>)
    requires forall d :: d in SearchDirs(env) ==> d !in files
    ensures LoadSpec(env, files) == Ok(DefaultSettings)
  {
    LoadFromDefaults(env, files);
    NoFilesNoChange(DefaultSettings, SearchDirs(env), files);
    DefaultsAligned();
  }

  /**
   * A load that succeeds has a frame size the encoder accepts, and the load fails
   * with `BadFrameSize` exactly when the files load but leave a size that is not
   * a multiple of 8.
   */
  lemma FrameSizeChecked(env: Environment, files: map<string, string>)
    ensures LoadSpec(env, files).Ok? ==> Aligned(LoadSpec(env, files).value)
    ensures LoadSpec(env, files) == Err(BadFrameSize)
      <==> ApplyFiles(DefaultSettings, SearchDirs(env), files).Ok?
           && !Aligned(ApplyFiles(DefaultSettings, SearchDirs(env), files).value)
  {
    LoadFromDefaults(env, files);
  }

  /**
   * When no file that opens is empty, a load is the defaults followed by every
   * line of every file of the search path, in order, and then the frame check.
   */
  lemma LoadIsLinesInOrder(env: Environment, files: map<string, string>)
    requires forall d :: d in files ==> files[d] != []
    ensures LoadSpec(env, files)
      == CheckFrameSize(ApplyLines(DefaultSettings, FileLines(files, SearchDirs(env))))
  {
    LoadFromDefaults(env, files);
    FilesAreTheirLines(DefaultSettings, SearchDirs(env), files);
  }
}
