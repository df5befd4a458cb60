/**
 * The value-level meaning of the configuration loader of src/config.c: the
 * configuration record, the table of known keys with their defaults, the two
 * setters (integer and string), the line format `key = value # comment`, and the
 * fold of the search path's files over the record, ending with the frame-size check.
 *
 * A fatal `rsError` becomes an `Err`; a `Result` that is `Err` ends the load.
 */
module ConfigSpec {

  import opened Wrappers
  import opened Text

  /** A C `int` on the targets the program is built for. */
  newtype int32 = x: int | -0x8000_0000 <= x < 0x8000_0000

  const INT_MIN: int := -0x8000_0000
  const INT_MAX: int := 0x7FFF_FFFF

  /** `long` on an LP64 target, the range `strtol` saturates to. */
  const LONG_MIN: int := -0x8000_0000_0000_0000
  const LONG_MAX: int := 0x7FFF_FFFF_FFFF_FFFF

  /** The fields of `RSConfig` that the loader fills. */
  datatype Settings = Settings(
    offsetX: int32,
    offsetY: int32,
    width: int32,
    height: int32,
    framerate: int32,
    duration: int32,
    compressQuality: int32,
    outputFile: string)

  /** The record after `rsMemoryClear`: every number 0 and no output file (shown as ""). */
  const Cleared: Settings := Settings(0, 0, 0, 0, 0, 0, 0, "")

  /** The integer fields, and the one string field. */
  datatype IntSlot = OffsetX | OffsetY | Width | Height | Framerate | Duration | CompressQuality
  datatype StrSlot = OutputFile

  /** Where a table entry stores its value, and so which setter it goes through. */
  datatype Field = IntField(slot: IntSlot) | StrField(str: StrSlot)

  datatype Value = IntValue(n: int32) | StrValue(s: string)

  function Get(c: Settings, f: Field): Value {
    match f
    case IntField(OffsetX) => IntValue(c.offsetX)
    case IntField(OffsetY) => IntValue(c.offsetY)
    case IntField(Width) => IntValue(c.width)
    case IntField(Height) => IntValue(c.height)
    case IntField(Framerate) => IntValue(c.framerate)
    case IntField(Duration) => IntValue(c.duration)
    case IntField(CompressQuality) => IntValue(c.compressQuality)
    case StrField(OutputFile) => StrValue(c.outputFile)
  }

  /** Stores `n` in one integer field and leaves every other field as it was. */
  function WithInt(c: Settings, s: IntSlot, n: int32): Settings {
    match s
    case OffsetX => c.(offsetX := n)
    case OffsetY => c.(offsetY := n)
    case Width => c.(width := n)
    case Height => c.(height := n)
    case Framerate => c.(framerate := n)
    case Duration => c.(duration := n)
    case CompressQuality => c.(compressQuality := n)
  }

  /** Stores a copy of `v` in the string field and leaves every other field as it was. */
  function WithStr(c: Settings, s: StrSlot, v: string): Settings {
    match s
    case OutputFile => c.(outputFile := v)
  }

  /** `WithInt` writes its field and no other. */
  lemma WithIntFrame(c: Settings, s: IntSlot, n: int32)
    ensures Get(WithInt(c, s, n), IntField(s)) == IntValue(n)
    ensures forall f :: f != IntField(s) ==> Get(WithInt(c, s, n), f) == Get(c, f)
  {
  }

  /** `WithStr` writes its field and no other. */
  lemma WithStrFrame(c: Settings, s: StrSlot, v: string)
    ensures Get(WithStr(c, s, v), StrField(s)) == StrValue(v)
    ensures forall f :: f != StrField(s) ==> Get(WithStr(c, s, v), f) == Get(c, f)
  {
  }

  /** One entry of `configParams`: the key, where its value goes, and its default text. */
  datatype Param = Param(key: string, field: Field, def: string)

  /** `configParams`, in the order the source lists it. */
  const Params: seq<Param> := [
    Param("offsetX", IntField(OffsetX), "0"),
    Param("offsetY", IntField(OffsetY), "0"),
    Param("width", IntField(Width), "1920"),
    Param("height", IntField(Height), "1080"),
    Param("framerate", IntField(Framerate), "30"),
    Param("duration", IntField(Duration), "30"),
    Param("compressQuality", IntField(CompressQuality), "70"),
    Param("outputFile", StrField(OutputFile), "~/Videos/ReplaySorcery_%F_%H-%M-%S.mp4")
  ]

  /** The fatal conditions of the loader. */
  datatype ConfigError =
    | BadLine               // a non-blank line without `=`
    | BadInteger(value: string)  // an integer setter given text that is not an int
    | ReadFailed            // a config file that opened but yielded no bytes
    | BadFrameSize          // width or height not a multiple of 8

  /** Bounds a number to the range of `long`, as `strtol` does on overflow. */
  function ClampLong(v: int): (r: int)
    ensures LONG_MIN <= r <= LONG_MAX
    ensures LONG_MIN <= v <= LONG_MAX ==> r == v
    ensures v > LONG_MAX ==> r == LONG_MAX
    ensures v < LONG_MIN ==> r == LONG_MIN
  {
    if v < LONG_MIN then LONG_MIN else if v > LONG_MAX then LONG_MAX else v
  }

  /**
   * `strtol(s, &end, 10)`: the value returned and the offset of `end`. Leading
   * whitespace and one sign are skipped, then the longest run of digits is read;
   * with no digit at all nothing is consumed (`end` is `s`) and the value is 0.
   */
  function StrToL(s: string): (r: (int, nat))
    ensures r.1 <= |s|
    ensures LONG_MIN <= r.0 <= LONG_MAX
    ensures DigitRun(s[DigitsStart(s)..]) == 0 ==> r == (0, 0)
    ensures DigitRun(s[DigitsStart(s)..]) > 0 ==> r.1 == DigitsStart(s) + DigitRun(s[DigitsStart(s)..])
  {
    var j := DigitsStart(s);
    var n := DigitRun(s[j..]);
    if n == 0 then (0, 0)
    else (ClampLong(WithSign(MinusSign(s), DigitsValue(s[j..][..n]))), j + n)
  }

  /** Where `strtol` looks for digits: past the leading whitespace and one '+' or '-'. */
  function DigitsStart(s: string): (j: nat)
    ensures LeadingSpaces(s) <= j <= LeadingSpaces(s) + 1 && j <= |s|
  {
    var i := LeadingSpaces(s);
    if i < |s| && (s[i] == '+' || s[i] == '-') then i + 1 else i
  }

  /** Whether the sign `strtol` skips is a '-'. */
  predicate MinusSign(s: string) {
    var i := LeadingSpaces(s);
    i < |s| && s[i] == '-'
  }

  /** The magnitude `m`, negated when a '-' was read. */
  function WithSign(negative: bool, m: nat): (v: int)
    ensures negative ==> v == -(m as int)
    ensures !negative ==> v == m
  {
    var n: int := m;
    if negative then -n else n
  }

  /**
   * `configInt`: the number `value` spells, when `strtol` consumes all of it and
   * the number fits an `int`; otherwise the load is fatal.
   */
  function ConfigInt(value: string): (r: Result<int32, ConfigError>)
    ensures r.Err? ==> r.error == BadInteger(value)
    ensures r.Ok? ==> StrToL(value) == (r.value as int, |value|)
  {
    var (n, end) := StrToL(value);
    if end != |value| || n < INT_MIN || n > INT_MAX then Err(BadInteger(value))
    else Ok(n as int32)
  }

  /** Runs the setter of field `f` on `value`. */
  function Assign(c: Settings, f: Field, value: string): (r: Result<Settings, ConfigError>)
    ensures r.Err? ==> f.IntField? && ConfigInt(value).Err? && r.error == BadInteger(value)
    ensures r.Ok? && f.IntField? ==> ConfigInt(value).Ok? && Get(r.value, f) == IntValue(ConfigInt(value).value)
    ensures r.Ok? && f.StrField? ==> Get(r.value, f) == StrValue(value)
  {
    match f
    case IntField(s) => (
      match ConfigInt(value)
      case Ok(n) => Ok(WithInt(c, s, n))
      case Err(e) => Err(e))
    case StrField(s) => Ok(WithStr(c, s, value))
  }

  /** The index of the first table entry whose key is `key`, at or after `from`. */
  function ParamIndexFrom(key: string, from: nat): (i: nat)
    requires from <= |Params|
    ensures from <= i <= |Params|
    ensures forall j :: from <= j < i ==> Params[j].key != key
    ensures i < |Params| ==> Params[i].key == key
    decreases |Params| - from
  {
    if from == |Params| then from
    else if Params[from].key == key then from
    else ParamIndexFrom(key, from + 1)
  }

  /** The index of the first table entry for `key`, or `|Params|` when it has none. */
  function ParamIndex(key: string): (i: nat)
    ensures i <= |Params|
    ensures forall j :: 0 <= j < i ==> Params[j].key != key
    ensures i < |Params| ==> Params[i].key == key
  {
    ParamIndexFrom(key, 0)
  }

  /** `configSet`: an unknown key is ignored; a known one runs its entry's setter. */
  function SetValue(c: Settings, key: string, value: string): (r: Result<Settings, ConfigError>)
    ensures ParamIndex(key) == |Params| ==> r == Ok(c)
    ensures r.Err? ==> r.error == BadInteger(value)
  {
    var i := ParamIndex(key);
    if i == |Params| then Ok(c) else Assign(c, Params[i].field, value)
  }

  /** What one line of a config file asks for. */
  datatype Line = Blank | Malformed | Assignment(key: string, value: string)

  /** The part of a line that counts: trimmed first, then cut at the first `#`. */
  function LineBody(line: string): (b: string)
    ensures '#' !in b
  {
    var t := TrimEnd(TrimStart(line));
    t[..Find(t, '#')]
  }

  /** Splits a non-blank body at its first `=` into a key and a value. */
  function ParseBody(b: string): (l: Line)
    ensures l.Blank? <==> b == []
    ensures l.Malformed? <==> b != [] && '=' !in b
    ensures l.Assignment? ==>
      '=' !in l.key && |l.key| + 1 + |l.value| <= |b|
      && l.key == b[..|l.key|] && l.value == b[|b| - |l.value|..]
    ensures l.Assignment? ==>
      var eq := Find(b, '=');
      |l.key| <= eq < |b| - |l.value|
      && AllSpace(b[|l.key|..eq]) && AllSpace(b[eq + 1..|b| - |l.value|])
    ensures l.Assignment? ==>
      (l.key == [] || !IsSpace(l.key[|l.key| - 1])) && (l.value == [] || !IsSpace(l.value[0]))
  {
    if b == [] then Blank
    else
      var eq := Find(b, '=');
      if eq == |b| then Malformed
      else Assignment(TrimEnd(b[..eq]), TrimStart(b[eq + 1..]))
  }

  function ParseLine(line: string): (l: Line)
    ensures l.Assignment? ==> '#' !in l.key && '#' !in l.value
  {
    ParseBody(LineBody(line))
  }

  /** `configLoadLine`. */
  function ApplyLine(c: Settings, line: string): (r: Result<Settings, ConfigError>)
    ensures ParseLine(line).Blank? ==> r == Ok(c)
    ensures r.Err? ==> r.error.BadLine? || r.error.BadInteger?
  {
    match ParseLine(line)
    case Blank => Ok(c)
    case Malformed => Err(BadLine)
    case Assignment(k, v) => SetValue(c, k, v)
  }

  /** The lines of a file applied top to bottom; the first fatal line ends the load. */
  function ApplyLines(c: Settings, lines: seq<string>): (r: Result<Settings, ConfigError>)
    ensures r.Err? ==> r.error.BadLine? || r.error.BadInteger?
    decreases |lines|
  {
    if lines == [] then Ok(c)
    else
      match ApplyLine(c, lines[0])
      case Err(e) => Err(e)
      case Ok(c1) => ApplyLines(c1, lines[1..])
  }

  /**
   * `configLoadFile` given what opening the file yields: nothing when it could not
   * be opened (skipped), else its whole text, split into lines at '\n'.
   */
  function ApplyFile(c: Settings, file: Option<string>): (r: Result<Settings, ConfigError>)
    ensures file.None? ==> r == Ok(c)
    ensures file == Some([]) ==> r == Err(ReadFailed)
    ensures r.Err? ==> !r.error.BadFrameSize?
  {
    match file
    case None => Ok(c)
    case Some(text) => if text == [] then Err(ReadFailed) else ApplyLines(c, Split(text, '\n'))
  }

  /** The contents of the config file in directory `dir`, if it opens. */
  function FileIn(files: map<string, string>, dir: string): Option<string> {
    if dir in files then Some(files[dir]) else None
  }

  /** The config files of the directories `dirs`, applied in that order. */
  function ApplyFiles(c: Settings, dirs: seq<string>, files: map<string, string>): (r: Result<Settings, ConfigError>)
    ensures r.Err? ==> !r.error.BadFrameSize?
    decreases |dirs|
  {
    if dirs == [] then Ok(c)
    else
      match ApplyFile(c, FileIn(files, dirs[0]))
      case Err(e) => Err(e)
      case Ok(c1) => ApplyFiles(c1, dirs[1..], files)
  }

  /** Loading the files of `a` and then those of `b` is loading those of `a + b`. */
  lemma {:induction false} ApplyFilesAppend(c: Settings, a: seq<string>, b: seq<string>, files: map<string, string>)
    ensures ApplyFiles(c, a + b, files)
      == match ApplyFiles(c, a, files)
         case Err(e) => Err(e)
         case Ok(c1) => ApplyFiles(c1, b, files)
    decreases |a|
  {
    if a == [] {
      assert a + b == b;
    } else {
      assert (a + b)[0] == a[0] && (a + b)[1..] == a[1..] + b;
      match ApplyFile(c, FileIn(files, a[0]))
      case Err(e) =>
      case Ok(c1) => ApplyFilesAppend(c1, a[1..], b, files);
    }
  }

  /** The two environment variables the loader reads; `None` when unset. */
  datatype Environment = Environment(configDirs: Option<string>, configHome: Option<string>)

  function ConfigDirs(env: Environment): string {
    match env.configDirs
    case Some(d) => d
    case None => "/etc/xdg"
  }

  function ConfigHome(env: Environment): string {
    match env.configHome
    case Some(h) => h
    case None => "~/.config"
  }

  /** The directories searched, in order: each of XDG_CONFIG_DIRS, XDG_CONFIG_HOME, ".". */
  function SearchDirs(env: Environment): (dirs: seq<string>)
    ensures |dirs| >= 3 && dirs[|dirs| - 2] == ConfigHome(env) && dirs[|dirs| - 1] == "."
  {
    Split(ConfigDirs(env), ':') + [ConfigHome(env), "."]
  }

  /** The table's defaults, each passed through `configSet` in table order. */
  function ApplyDefaults(c: Settings, ps: seq<Param>): (r: Result<Settings, ConfigError>)
    ensures r.Err? ==> r.error.BadInteger?
    decreases |ps|
  {
    if ps == [] then Ok(c)
    else
      match SetValue(c, ps[0].key, ps[0].def)
      case Err(e) => Err(e)
      case Ok(c1) => ApplyDefaults(c1, ps[1..])
  }

  /** The frame-size check that ends the load. */
  predicate Aligned(c: Settings) {
    c.width as int % 8 == 0 && c.height as int % 8 == 0
  }

  function CheckFrameSize(r: Result<Settings, ConfigError>): (out: Result<Settings, ConfigError>)
    ensures out.Ok? ==> Aligned(out.value)
    ensures r.Err? ==> out == r
    ensures r.Ok? && Aligned(r.value) ==> out == r
    ensures r.Ok? && !Aligned(r.value) ==> out == Err(BadFrameSize)
  {
    match r
    case Err(e) => Err(e)
    case Ok(c) => if Aligned(c) then Ok(c) else Err(BadFrameSize)
  }

  /** `rsConfigLoad`: defaults, then every file of the search path, then the frame check. */
  function LoadSpec(env: Environment, files: map<string, string>): (r: Result<Settings, ConfigError>)
    ensures r.Ok? ==> Aligned(r.value)
  {
    match ApplyDefaults(Cleared, Params)
    case Err(e) => Err(e)
    case Ok(d) => CheckFrameSize(ApplyFiles(d, SearchDirs(env), files))
  }
}
