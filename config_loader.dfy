/**
 * The loader of src/config.c as it runs: an `RSConfig` whose fields are written
 * one setter call at a time, a `for` loop over the parameter table, and `while`
 * loops that cut the next line out of a file buffer and the next directory out of
 * XDG_CONFIG_DIRS. Each method is proved against the function of ConfigSpec that
 * gives its meaning. A fatal `rsError` is the `Fail` outcome; what the record
 * holds after one is not specified, since the process ends there.
 */
module ConfigLoader {

  import opened Wrappers
  import opened Text
  import opened ConfigSpec

  /** `RSConfig`: the record the loader fills in place. */
  class Config {
    var offsetX: int32
    var offsetY: int32
    var width: int32
    var height: int32
    var framerate: int32
    var duration: int32
    var compressQuality: int32
    var outputFile: string

    /** The value the fields hold now. */
    function Snapshot(): Settings
      reads this
    {
      Settings(offsetX, offsetY, width, height, framerate, duration, compressQuality, outputFile)
    }

    /** A record as the caller allocates it, already cleared. */
    constructor ()
      ensures Snapshot() == Cleared
    {
      offsetX, offsetY, width, height := 0, 0, 0, 0;
      framerate, duration, compressQuality := 0, 0, 0;
      outputFile := "";
    }

    /** `rsMemoryClear` of the whole record. */
    method Clear()
      modifies this
      ensures Snapshot() == Cleared
    {
      offsetX, offsetY, width, height := 0, 0, 0, 0;
      framerate, duration, compressQuality := 0, 0, 0;
      outputFile := "";
    }

    /** `rsConfigDestroy`: releases the output file and clears the record. */
    method Destroy()
      modifies this
      ensures Snapshot() == Cleared
    {
      Clear();
    }

    /** Writes one integer field; nothing else changes. */
    method StoreInt(slot: IntSlot, n: int32)
      modifies this
      ensures Snapshot() == WithInt(old(Snapshot()), slot, n)
    {
      match slot
      case OffsetX => offsetX := n;
      case OffsetY => offsetY := n;
      case Width => width := n;
      case Height => height := n;
      case Framerate => framerate := n;
      case Duration => duration := n;
      case CompressQuality => compressQuality := n;
    }

    /**
     * `configInt`: the value must be consumed whole by `strtol` and fit an `int`,
     * else the load is fatal and the field keeps its value.
     */
    method SetInt(slot: IntSlot, value: string) returns (res: Outcome<ConfigError>)
      modifies this
      ensures res == StatusOf(Assign(old(Snapshot()), IntField(slot), value))
      ensures res.Pass? ==> Snapshot() == Assign(old(Snapshot()), IntField(slot), value).value
      ensures res.Fail? ==> Snapshot() == old(Snapshot())
    {
      var (n, end) := StrToL(value);
      if end != |value| || n < INT_MIN || n > INT_MAX {
        return Fail(BadInteger(value));
      }
      StoreInt(slot, n as int32);
      res := Pass;
    }

    /** `configString`: the old string is replaced by a copy of `value`. */
    method SetString(slot: StrSlot, value: string) returns (res: Outcome<ConfigError>)
      modifies this
      ensures res == Pass
      ensures Snapshot() == WithStr(old(Snapshot()), slot, value)
    {
      match slot
      case OutputFile => outputFile := value;
      res := Pass;
    }

    /**
     * `configSet`: the first table entry whose key equals `key` decides the field
     * and the setter; with no such entry nothing changes.
     */
    method Set(key: string, value: string) returns (res: Outcome<ConfigError>)
      modifies this
      ensures res == StatusOf(SetValue(old(Snapshot()), key, value))
      ensures res.Pass? ==> Snapshot() == SetValue(old(Snapshot()), key, value).value
    {
      for i := 0 to |Params|
        invariant forall j :: 0 <= j < i ==> Params[j].key != key
        invariant Snapshot() == old(Snapshot())
      {
        if Params[i].key == key {
          assert ParamIndex(key) == i;
          match Params[i].field {
            case IntField(s) =>
              res := SetInt(s, value);
            case StrField(s) =>
              res := SetString(s, value);
          }
          return;
        }
      }
      assert ParamIndex(key) == |Params|;
      res := Pass;
    }

    /**
     * `configLoadLine`: trims the line, cuts it at the first `#`, ignores it when
     * nothing is left, and otherwise splits it at the first `=`.
     */
    method LoadLine(line: string) returns (res: Outcome<ConfigError>)
      modifies this
      ensures res == StatusOf(ApplyLine(old(Snapshot()), line))
      ensures res.Pass? ==> Snapshot() == ApplyLine(old(Snapshot()), line).value
    {
      var text := TrimEnd(TrimStart(line));
      var comment := Find(text, '#');
      text := text[..comment];
      if text == [] {
        return Pass;
      }
      var eq := Find(text, '=');
      if eq == |text| {
        return Fail(BadLine);
      }
      var key := TrimEnd(text[..eq]);
      var value := TrimStart(text[eq + 1..]);
      assert ParseLine(line) == Assignment(key, value);
      res := Set(key, value);
    }

    /**
     * `configLoadFile`: a directory whose file does not open is skipped; an empty
     * file is fatal; otherwise each '\n'-separated line is loaded in turn.
     */
    method LoadFile(dir: string, files: map<string, string>) returns (res: Outcome<ConfigError>)
      modifies this
      ensures res == StatusOf(ApplyFile(old(Snapshot()), FileIn(files, dir)))
      ensures res.Pass? ==> Snapshot() == ApplyFile(old(Snapshot()), FileIn(files, dir)).value
    {
      if dir !in files {
        return Pass;
      }
      var buffer := files[dir];
      if |buffer| == 0 {
        return Fail(ReadFailed);
      }
      var ptr: Option<string> := Some(buffer);
      while ptr.Some?
        invariant ApplyFile(old(Snapshot()), FileIn(files, dir))
          == if ptr.None? then Ok(Snapshot()) else ApplyLines(Snapshot(), Split(ptr.value, '\n'))
        decreases if ptr.None? then 0 else |ptr.value| + 1
      {
        var (line, rest) := SplitNext(ptr.value, '\n');
        ghost var before := Snapshot();
        ghost var lines := Split(ptr.value, '\n');
        assert lines[0] == line && lines[1..] == if rest.None? then [] else Split(rest.value, '\n');
        ptr := rest;
        res := LoadLine(line);
        if res.Fail? {
          return;
        }
      }
      res := Pass;
    }

    /** The defaults loop of `rsConfigLoad`: every table entry's default through `configSet`. */
    method LoadDefaults() returns (res: Outcome<ConfigError>)
      modifies this
      ensures res == StatusOf(ApplyDefaults(old(Snapshot()), Params))
      ensures res.Pass? ==> Snapshot() == ApplyDefaults(old(Snapshot()), Params).value
    {
      for i := 0 to |Params|
        invariant ApplyDefaults(old(Snapshot()), Params) == ApplyDefaults(Snapshot(), Params[i..])
      {
        assert Params[i..][0] == Params[i] && Params[i..][1..] == Params[i + 1..];
        res := Set(Params[i].key, Params[i].def);
        if res.Fail? {
          return;
        }
      }
      res := Pass;
    }

    /** The XDG_CONFIG_DIRS loop of `rsConfigLoad`: each ':'-separated entry, left to right. */
    method LoadConfigDirs(dirs: string, files: map<string, string>) returns (res: Outcome<ConfigError>)
      modifies this
      ensures res == StatusOf(ApplyFiles(old(Snapshot()), Split(dirs, ':'), files))
      ensures res.Pass? ==> Snapshot() == ApplyFiles(old(Snapshot()), Split(dirs, ':'), files).value
    {
      var ptr: Option<string> := Some(dirs);
      while ptr.Some?
        invariant ApplyFiles(old(Snapshot()), Split(dirs, ':'), files)
          == if ptr.None? then Ok(Snapshot()) else ApplyFiles(Snapshot(), Split(ptr.value, ':'), files)
        decreases if ptr.None? then 0 else |ptr.value| + 1
      {
        var (dir, rest) := SplitNext(ptr.value, ':');
        ghost var todo := Split(ptr.value, ':');
        assert todo[0] == dir && todo[1..] == if rest.None? then [] else Split(rest.value, ':');
        ptr := rest;
        res := LoadFile(dir, files);
        if res.Fail? {
          return;
        }
      }
      res := Pass;
    }

    /**
     * The file part of `rsConfigLoad`: the files of XDG_CONFIG_DIRS (default
     * "/etc/xdg"), then that of XDG_CONFIG_HOME (default "~/.config"), then that of ".".
     */
    method LoadSearchPath(env: Environment, files: map<string, string>) returns (res: Outcome<ConfigError>)
      modifies this
      ensures res == StatusOf(ApplyFiles(old(Snapshot()), SearchDirs(env), files))
      ensures res.Pass? ==> Snapshot() == ApplyFiles(old(Snapshot()), SearchDirs(env), files).value
    {
      ghost var start := Snapshot();
      var home := ConfigHome(env);
      ApplyFilesAppend(start, Split(ConfigDirs(env), ':'), [home, "."], files);
      res := LoadConfigDirs(ConfigDirs(env), files);
      if res.Fail? {
        return;
      }
      ghost var global := Snapshot();
      res := LoadFile(home, files);
      if res.Fail? {
        return;
      }
      ghost var user := Snapshot();
      assert ApplyFiles(global, [home, "."], files) == ApplyFiles(user, ["."], files);
      res := LoadFile(".", files);
      assert res.Pass? ==> ApplyFiles(user, ["."], files) == Ok(Snapshot());
    }

    /**
     * `rsConfigLoad`: clears the record, applies the table's defaults through
     * `configSet`, loads the files of the search path, and finally checks that
     * width and height are multiples of 8.
     */
    method Load(env: Environment, files: map<string, string>) returns (res: Outcome<ConfigError>)
      modifies this
      ensures res == StatusOf(LoadSpec(env, files))
      ensures res.Pass? ==> Snapshot() == LoadSpec(env, files).value
    {
      Clear();
      res := LoadDefaults();
      if res.Fail? {
        return;
      }
      res := LoadSearchPath(env, files);
      if res.Fail? {
        return;
      }
      if width as int % 8 != 0 || height as int % 8 != 0 {
        return Fail(BadFrameSize);
      }
      res := Pass;
    }
  }
}
