# ReplaySorcery: configuration loader and encoder fallback chain

A Dafny model of two parts of ReplaySorcery, an instant-replay screen recorder.

**The configuration loader (src/config.c).** `rsConfigLoad` starts by clearing the `RSConfig` record. It then runs every entry of the parameter table through `configSet`, with the entry's default as the value. Next it reads `replay-sorcery.conf` from these places, in order:

- each ':'-separated directory of `XDG_CONFIG_DIRS` (default `/etc/xdg`);
- `XDG_CONFIG_HOME` (default `~/.config`);
- the current directory.

Each file is split into lines at '\n'. `configLoadLine` handles one line:

- it trims the line and cuts it at the first '#';
- it ignores a line with nothing left;
- it rejects a line without '=' as fatal;
- otherwise it splits the line at the first '=' and hands key and value to `configSet`.

`configSet` finds the table entry with that key and runs the entry's setter:

- `configInt` reads the value with `strtol`. The whole text must be consumed and the number must fit an `int`, else the load fails.
- `configString` copies the value.

An unknown key is ignored. The load ends with a check that width and height are multiples of 8.

The value-level meaning is in `ConfigSpec` and the string primitives are in `Text`. `ConfigLoader.Config` is the record as a class. Its methods update the fields in place with the source's loops, and each method is proved against its `ConfigSpec` function. `ConfigSetter`, `ConfigProperties`, `ConfigLines` and `ConfigLoad` prove what those functions promise.

**The encoder fallback chain (old/encoder/video.c).** `rsVideoEncoderCreate` tries each enabled backend in turn:

- the nVidia encoder;
- the VAAPI encoder, which needs a hardware device;
- the software chain `rsVideoEncoderCreateSW`: x264 in a build with it, then OpenH264.

Each attempt first adds its quality tier's settings to an `AVDictionary`. There is one dictionary per function: within `rsVideoEncoderCreate` it carries over from the nVidia attempt to the VAAPI attempt, and `rsVideoEncoderCreateSW` starts an empty one of its own for x264 and OpenH264. The first encoder created wins. When no encoder is created the call ends in the fatal `rsError(AVERROR(ENOSYS))`.

`rsEncoderCreate` is modelled as an oracle: a function from the request it is handed to a return code and the dictionary it leaves behind. `VideoSpec` holds the tables, the candidates and a reference definition, "try each candidate in turn" (`TryInOrder`). `VideoEncoder` holds the two functions as methods with early returns and an options variable updated in place, each proved equal to the reference. `VideoProperties` proves ordering, first-success and fatal-error properties of the reference.

## Model

| member | source | states |
|---|---|---|
| Text.TrimStart | src/config.c:85 | the result is a suffix of the line that does not start with whitespace, and everything dropped is whitespace |
| Text.TrimEnd | src/config.c:101 | the result is a prefix of the text that does not end with whitespace, and everything dropped is whitespace |
| Text.TrimCommutes | src/config.c:85 | trimming the start then the end gives the same text as the other order |
| Text.Find | src/config.c:87-90 | `strchr`: an index at most the length, no earlier occurrence, and the character itself when it is found |
| Text.SplitNext | src/config.c:131-135 | the token holds no delimiter; either it is the whole buffer and nothing remains, or buffer = token + delimiter + rest |
| Text.Split | src/config.c:155-159 | at least one token, and no token holds the delimiter |
| Text.JoinSplit | src/config.c:131-135 | joining the tokens with the delimiter gives back the buffer: splitting loses nothing |
| Text.SplitJoin | src/config.c:155-159 | splitting a join of delimiter-free parts gives back exactly those parts |
| Text.DigitsRoundTrip | src/config.c:45 | the decimal spelling of a natural number reads back as that number |
| ConfigSpec.ClampLong | src/config.c:45 | the result lies in the range of `long`; in-range values are kept and out-of-range ones saturate to the nearer bound |
| ConfigSpec.StrToL | src/config.c:44-45 | `strtol` stops within the text and returns a value in the range of `long`; with no digit after the whitespace and sign it returns 0 and consumes nothing, otherwise it stops right after the digit run |
| ConfigSpec.ConfigInt | src/config.c:42-50 | an error is always `BadInteger` of the value; a success means `strtol` consumed the whole text and read exactly the stored number |
| ConfigSpec.WithIntFrame | src/config.c:49 | an integer setter writes its own field and no other |
| ConfigSpec.WithStrFrame | src/config.c:52-57 | the string setter writes a copy of the value to its own field and no other |
| ConfigSpec.ParamIndex | src/config.c:74-75 | the first table entry with the key: no earlier entry has it, and the table's size when none does |
| ConfigSpec.LineBody | src/config.c:85-90 | after the comment is cut, the body holds no '#' |
| ConfigSpec.CheckFrameSize | src/config.c:171-173 | an earlier error passes through unchanged; a record with width and height multiples of 8 passes unchanged; any other record fails with `BadFrameSize` |
| ConfigSpec.Assign | src/config.c:76-77 | running an entry's setter: an error only from an integer field whose value `configInt` rejects; on success the field holds the parsed number, or the string itself |
| ConfigSpec.SetValue | src/config.c:72-82 | `configSet`: an unknown key leaves the record as it was; the only error is `BadInteger` of the value |
| ConfigSpec.ParseBody | src/config.c:91-102 | blank iff the body is empty; malformed iff it is non-empty without '='; otherwise the split is at the first '=': the key is the text before it without trailing whitespace, and the value the text after it without leading whitespace |
| ConfigSpec.ParseLine | src/config.c:84-102 | the key and value of an assignment hold no '#': the comment was cut before the split |
| ConfigSpec.ApplyLine | src/config.c:84-104 | `configLoadLine`: a blank line changes nothing, and a line fails only with `BadLine` or `BadInteger` |
| ConfigSpec.ApplyLines | src/config.c:131-135 | the lines of a file fail only with `BadLine` or `BadInteger`, never with a read or frame-size error |
| ConfigSpec.ApplyFile | src/config.c:106-136 | `configLoadFile`: a file that does not open changes nothing; one that opens but is empty fails with `ReadFailed`; no file reports `BadFrameSize` |
| ConfigSpec.ApplyFiles | src/config.c:157-169 | a sequence of directories never reports `BadFrameSize`; only the final check does |
| ConfigSpec.ConfigDirs | src/config.c:147-150 | definition: XDG_CONFIG_DIRS, or "/etc/xdg" when unset; proved about by ConfigLoad.DefaultSearchPath |
| ConfigSpec.ConfigHome | src/config.c:162-165 | definition: XDG_CONFIG_HOME, or "~/.config" when unset; proved about by ConfigLoad.DefaultSearchPath |
| ConfigSpec.SearchDirs | src/config.c:146-169 | the search path ends with XDG_CONFIG_HOME and then "."; ConfigLoad.SearchOrder states the rest |
| ConfigSpec.ApplyDefaults | src/config.c:142-144 | the defaults loop fails, if at all, only with `BadInteger`; ConfigLoad.DefaultsFromTable shows it never fails |
| ConfigSpec.LoadSpec | src/config.c:138-174 | `rsConfigLoad`: a successful load has width and height multiples of 8; ConfigLoad.LoadFromDefaults and FrameSizeChecked state the rest |
| ConfigSpec.ApplyFilesAppend | src/config.c:157-169 | loading the files of one directory list and then another is loading the files of the concatenated list |
| ConfigSetter.KeysDistinct | src/config.c:60-68 | no key appears twice in the table `Params`, the model of `configParams` |
| ConfigSetter.KnownKey | src/config.c:72-79 | a table key selects its own entry, and `configSet` runs that entry's setter on the value |
| ConfigSetter.UnknownKey | src/config.c:74-81 | a key missing from the table leaves the record unchanged; it is not an error |
| ConfigSetter.SetFailure | src/config.c:72-82 | `configSet` fails only with `BadInteger(value)`, only for a known integer key, and only when `configInt` rejects the value |
| ConfigSetter.Parsed | src/config.c:42-58 | the string setter accepts every value; an integer setter stores a value exactly when `configInt` accepts it |
| ConfigSetter.SetParsed | src/config.c:72-79 | a known key succeeds iff its setter accepts the value; the field then holds the parsed value and no other field changes |
| ConfigProperties.StrToLOf | src/config.c:45 | `strtol` on whitespace, a sign and digits followed by a non-digit: reads the signed digits, saturated to `long`, and stops after them |
| ConfigProperties.ConfigIntEmpty | src/config.c:45-49 | an empty value is accepted as 0, since `strtol` consumes nothing and stops at the end |
| ConfigProperties.ConfigIntAccepts | src/config.c:42-50 | whitespace, an optional sign and digits whose value fits an `int` are accepted as that value |
| ConfigProperties.ConfigIntRejectsTrailing | src/config.c:46-47 | any character after the digits, a space included, is fatal |
| ConfigProperties.ConfigIntRejectsOutOfRange | src/config.c:46-47 | a number outside `int`, even beyond `long`, is fatal |
| ConfigProperties.ConfigIntRejectsNoDigits | src/config.c:45-47 | a non-empty value with no digit right after its leading whitespace and one sign (`"x1"`, `"--5"`, `"- 5"`) is fatal, since `strtol` consumes nothing |
| ConfigProperties.ConfigIntRejectsDigitFree | src/config.c:45-47 | in particular, a non-empty value without a single digit is fatal |
| ConfigProperties.ConfigIntRoundTrip | src/config.c:42-50 | every `int` written in decimal is read back as itself |
| ConfigLines.BlankLine | src/config.c:85-93 | a line is ignored exactly when it is all whitespace or its first non-space character is '#'; an ignored line changes nothing |
| ConfigLines.CommentCut | src/config.c:85-90 | everything from the first '#' on is dropped; the text before it keeps its trailing whitespace |
| ConfigLines.AssignmentBody | src/config.c:85-90 | the body of a `k = v` line without '#' runs from the key's first non-space to the value's last |
| ConfigLines.SplitAtEquals | src/config.c:95-102 | a body splits at its first '=': the key loses trailing whitespace and the value leading whitespace |
| ConfigLines.AssignmentLine | src/config.c:84-103 | a `k = v` line without '#' assigns the trimmed value to the trimmed key |
| ConfigLines.MissingEquals | src/config.c:95-99 | a line fails with `BadLine` exactly when its body is non-empty and holds no '=' |
| ConfigLines.CommentedAssignment | src/config.c:86-103 | with a comment after the value, the value keeps the whitespace before the '#' |
| ConfigLines.CommentAfterNumber | src/config.c:42-48 | `width = <digits> # px` passes `<digits> ` with a trailing space to `configInt`, so the load fails |
| ConfigLoad.ApplyLinesAppend | src/config.c:131-135 | loading lines `a` and then lines `b` is loading `a + b`, and an error in `a` ends the load |
| ConfigLoad.LineKeepsField | src/config.c:84-103 | a line that does not assign to a field leaves it as it was |
| ConfigLoad.LineSetsField | src/config.c:84-103 | a line that assigns to a field succeeds iff the setter accepts its value, and then stores it |
| ConfigLoad.UntouchedFieldKept | src/config.c:131-135 | lines none of which assign to a field leave it as it was |
| ConfigLoad.LastAssignmentWins | src/config.c:131-135 | after a successful load, a field holds the value of the last line that assigns to it |
| ConfigLoad.FilesAreTheirLines | src/config.c:106-136 | without empty files, loading the files of a directory list is loading all their lines in order, file after file |
| ConfigLoad.EmptyFileFatal | src/config.c:124-127 | a file that opens but yields no bytes ends the load with `ReadFailed`, whatever follows |
| ConfigLoad.NoFilesNoChange | src/config.c:113-118 | directories whose file does not open are skipped without change |
| ConfigLoad.SearchOrder | src/config.c:146-169 | the search path is the entries of XDG_CONFIG_DIRS (which join back to it), then XDG_CONFIG_HOME, then "." |
| ConfigLoad.DefaultSearchPath | src/config.c:147-169 | with neither variable set: "/etc/xdg", "~/.config", "." |
| ConfigLoad.DefaultsGive | src/config.c:142-144 | from any record, the defaults loop yields any record whose fields hold the table's parsed defaults |
| ConfigLoad.DefaultsFromTable | src/config.c:60-68 | the defaults loop over `Params` always succeeds and yields offsets 0, 1920x1080, 30 fps, 30 s, quality 70 and the default output path |
| ConfigLoad.DefaultsAligned | src/config.c:63-64 | the default frame size passes the final check |
| ConfigLoad.LoadFromDefaults | src/config.c:138-169 | every load is the files of the search path applied to the defaults, then the frame check |
| ConfigLoad.LoadWithoutFiles | src/config.c:138-174 | with no config file anywhere, the load yields exactly the defaults |
| ConfigLoad.FrameSizeChecked | src/config.c:171-173 | a successful load has an aligned frame size; `BadFrameSize` happens exactly when the files load but leave a frame size that is not aligned |
| ConfigLoad.LoadIsLinesInOrder | src/config.c:138-173 | without empty files, the load is every line of every file on the search path, in order, applied to the defaults, then the frame check |
| ConfigLoader.Config.constructor | src/config.c:141 | a new record is cleared |
| ConfigLoader.Config.Clear | src/config.c:141 | every number becomes 0 and the output file becomes empty |
| ConfigLoader.Config.Destroy | src/config.c:176-179 | the record is cleared |
| ConfigLoader.Config.StoreInt | src/config.c:49 | one integer field takes the value; the rest of the record is unchanged |
| ConfigLoader.Config.SetInt | src/config.c:42-50 | outcome and new record as `configInt` gives them; on failure the record is unchanged |
| ConfigLoader.Config.SetString | src/config.c:52-58 | always succeeds; the string field holds the value and nothing else changes |
| ConfigLoader.Config.Set | src/config.c:72-82 | the table scan's outcome and new record are those of `configSet` |
| ConfigLoader.Config.LoadLine | src/config.c:84-104 | outcome and new record are those of the line's meaning |
| ConfigLoader.Config.LoadFile | src/config.c:106-136 | the line-splitting loop gives the outcome and record of loading the file: skipped, fatal when empty, else every line in order |
| ConfigLoader.Config.LoadDefaults | src/config.c:142-144 | the loop over the table gives the outcome and record of applying every default in order |
| ConfigLoader.Config.LoadConfigDirs | src/config.c:147-159 | the ':'-splitting loop gives the outcome and record of loading each directory's file in order |
| ConfigLoader.Config.LoadSearchPath | src/config.c:146-169 | the outcome and record of loading the whole search path |
| ConfigLoader.Config.Load | src/config.c:138-174 | the outcome and record of the whole load, including the frame-size check |
| VideoSpec.DictSet | old/encoder/video.c:38 | `av_dict_set` adds the key, which holds the value; every other key keeps its value |
| VideoSpec.DictSetAll | old/encoder/video.c:106-107 | definition: the `av_dict_set` calls of one attempt in order; proved about by VideoProperties.DictSetAllHolds and DictSetAllKeeps |
| VideoSpec.Nvenc | old/encoder/video.c:38-45 | definition: "h264_nvenc", ordinary frames, no device, the tier's preset; proved about by VideoProperties.NvencFallsBack and CandidateFacts |
| VideoSpec.Vaapi | old/encoder/video.c:55-65 | definition: "h264_vaapi", NV12 frames, a VAAPI device and format, the tier's global_quality; proved about by VideoProperties.OnlyVaapiNeedsDevice |
| VideoSpec.X264 | old/encoder/video.c:89-96 | definition: "libx264", ordinary frames, the tier's preset; proved about by VideoProperties.SoftwareOrder |
| VideoSpec.OpenH264 | old/encoder/video.c:106-114 | definition: "libopenh264", ordinary frames, the tier's qmin and qmax; proved about by VideoProperties.SoftwareOrder |
| VideoSpec.RequestFor | old/encoder/video.c:40-44 | definition: a candidate's fixed parameters with its settings added to the dictionary; proved about by VideoProperties.RequestMade |
| VideoSpec.HardwareCandidates | old/encoder/video.c:32-69 | definition: nVidia then VAAPI, each unless disabled; proved about by VideoProperties.CandidateFacts |
| VideoSpec.SoftwareCandidates | old/encoder/video.c:88-114 | definition: x264 in a build with it, then OpenH264; proved about by VideoProperties.SoftwareOrder |
| VideoSpec.Candidates | old/encoder/video.c:32-76 | definition: the enabled hardware candidates, then the software chain unless disabled; proved about by VideoProperties.AttemptOrder |
| VideoSpec.Acquire | old/encoder/video.c:24-79 | `rsVideoEncoderCreate`: a failure is always `AVERROR(ENOSYS)`, and a created encoder is the last request made; VideoProperties.FirstSuccessWins and FatalWhenAllFail state the rest |
| VideoSpec.TryInOrder | old/encoder/video.c:32-69 | no more requests than candidates; the encoder created is the last request made |
| VideoSpec.TryFirst | old/encoder/video.c:40-48 | the first attempt either creates the encoder or passes its leftover dictionary to the rest of the run |
| VideoSpec.Software | old/encoder/video.c:81-120 | the software chain returns a non-negative code exactly when it created an encoder, and that encoder is the last request it made |
| VideoEncoder.CreateSoftware | old/encoder/video.c:81-120 | the method's return code, encoder and requests are those of the reference software chain |
| VideoEncoder.CreateVideoEncoder | old/encoder/video.c:24-79 | the method's result and requests are those of the reference fallback chain |
| VideoProperties.TablesComplete | old/encoder/video.c:16-22 | each of the tables `NvidiaPreset`, `VaapiQuality`, `OpenH264QMin`, `OpenH264QMax` and `X264Preset` has one non-empty entry for each of the three tiers |
| VideoProperties.NumericTablesOrdered | old/encoder/video.c:17-19 | the numeric entries are decimal; OpenH264's qmin < qmax at each tier; every numeric value falls as the tier rises |
| VideoProperties.TryRequests | old/encoder/video.c:26 | the first request starts from the initial dictionary; each later one from what the previous attempt left |
| VideoProperties.TryStopsAtFirstSuccess | old/encoder/video.c:40-45 | every attempt but the last failed, and the run created an encoder iff its last attempt succeeded |
| VideoProperties.TryExhausts | old/encoder/video.c:32-69 | a run over candidates makes at least one request; a run that creates nothing tried every candidate |
| VideoProperties.DictSetAllHolds | old/encoder/video.c:106-107 | after settings with distinct keys, each key holds its value |
| VideoProperties.DictSetAllKeeps | old/encoder/video.c:106-107 | settings that do not name a key leave it as it was |
| VideoProperties.RequestMade | old/encoder/video.c:91-96 | whatever the dictionary held, a candidate's request carries its name, formats, device and settings |
| VideoProperties.RunMade | old/encoder/video.c:32-69 | each request of a run is made for the candidate at its position |
| VideoProperties.RunFailed | old/encoder/video.c:32-69 | a run that creates nothing tried every candidate, and every attempt failed |
| VideoProperties.SoftwareDistinct | old/encoder/video.c:89-107 | no software candidate sets a key twice |
| VideoProperties.HardwareDistinct | old/encoder/video.c:38-56 | no hardware candidate sets a key twice |
| VideoProperties.SoftwareReturns | old/encoder/video.c:81-120 | returns 0 or `AVERROR(ENOSYS)`; 0 iff some attempt succeeded, and then the encoder is the last attempt's; otherwise every software candidate of the build was tried (OpenH264 alone without x264) |
| VideoProperties.SoftwareOrder | old/encoder/video.c:88-114 | x264 goes first, only in an x264 build, with its preset; OpenH264 follows with qmin and qmax added to what x264 left |
| VideoProperties.AcquireShape | old/encoder/video.c:24-79 | the requests are the hardware run's, then the software chain's only when every hardware attempt failed and software is enabled |
| VideoProperties.AcquireRuns | old/encoder/video.c:24-79 | the call is a hardware run from an empty dictionary and, when needed, a software run from a new empty dictionary |
| VideoProperties.AttemptOrder | old/encoder/video.c:24-79 | the i-th request goes to the i-th enabled candidate in priority order |
| VideoProperties.FirstSuccessWins | old/encoder/video.c:24-79 | every attempt but the last failed; an encoder is made iff the last attempt succeeded, and it is that attempt's |
| VideoProperties.FatalWhenAllFail | old/encoder/video.c:71-78 | the call fails only with `AVERROR(ENOSYS)`, and fails iff every enabled candidate was tried and failed |
| VideoProperties.CandidateFacts | old/encoder/video.c:32-73 | each family is a candidate only when it is enabled (x264 only in its build); only VAAPI names a device type and format |
| VideoProperties.DisabledNeverAttempted | old/encoder/video.c:32-73 | a disabled family is never attempted, and x264 never without the build option |
| VideoProperties.OnlyVaapiNeedsDevice | old/encoder/video.c:58-65 | exactly the VAAPI requests carry a hardware device type, with the VAAPI pixel format |
| VideoProperties.AllDisabled | old/encoder/video.c:24-79 | with every family disabled, nothing is attempted and the call fails with `AVERROR(ENOSYS)` |
| VideoProperties.OptionsCarryOver | old/encoder/video.c:26 | each request uses what the previous attempt left in the dictionary, except the first of each function, which starts empty |
| VideoProperties.SoftwareOnlyScenario | old/encoder/video.c:71-96 | hardware disabled, an x264 build, the medium tier: the only request is x264 with preset "medium", and it is the encoder |
| VideoProperties.NvencFallsBack | old/encoder/video.c:32-65 | when nVidia fails, VAAPI is tried next, with its global_quality added to what the nVidia attempt left |

## Left out

- File and environment I/O. A file is modelled as the text of the `replay-sorcery.conf` in a directory, or absent when `fopen` fails. The environment is modelled as two optional strings.
- `rsPathAppend`: a directory names its file directly. The path join is not part of this model.
- `rsStringSplit` and the trim helpers are not part of this model. Split is modelled as strsep-style delimiter splitting: an empty buffer gives one empty token, and a trailing delimiter gives a final empty token. This empty-token handling is an assumption. Trimming uses the "C"-locale `isspace` set.
- NUL bytes inside a file are not modelled: a string ends only where it ends.
- `long` is modelled as the 64-bit range of an LP64 target.
- Logging (`rsLog`, `av_log`, `av_err2str`) is I/O and is not part of this model.
- Memory management (`rsMemoryCreate`/`rsMemoryDestroy`, buffers) is not modelled, including freedom from leaks.
- The `offsetof` and function-pointer dispatch of the table is modelled as a closed field enumeration.
- The width check uses C's `%`. Whether the remainder is zero is the same under C's truncating remainder and Dafny's Euclidean one, so the model uses Dafny's.
- The error message for the frame-size check says "divisable by 2", but the code checks divisibility by 8. The model follows the check.
- `rsError` is modelled as an `Err`/`Fail` outcome that ends the operation.
- ConfigLoader.Config.Set: after a `Fail` outcome the record's new contents are not stated, because the process ends there.
- ConfigLoader.Config.LoadLine: after a `Fail` outcome the record's new contents are not stated, because the process ends there.
- ConfigLoader.Config.LoadFile: after a `Fail` outcome the record's new contents are not stated, because the process ends there.
- ConfigLoader.Config.LoadDefaults: after a `Fail` outcome the record's new contents are not stated, because the process ends there.
- ConfigLoader.Config.LoadConfigDirs: after a `Fail` outcome the record's new contents are not stated, because the process ends there.
- ConfigLoader.Config.LoadSearchPath: after a `Fail` outcome the record's new contents are not stated, because the process ends there.
- ConfigLoader.Config.Load: after a `Fail` outcome the record's new contents are not stated, because the process ends there.
- `rsEncoderCreate` and FFmpeg are not part of this model. The creation call is a pure function of the request, so an identical request gets an identical reply. Frames, the input, and opening and releasing hardware devices are not modelled. The `RSEncoder` filled in is represented by the request that created it.
- `rsConfig.recordQuality` outside 0..2 is excluded by a precondition (`ValidQuality`). The source indexes its tables with it unchecked.
- The `RS_CONFIG_X264` build option is a boolean parameter.
- The code has three disable flags: nVidia, VAAPI and the whole software chain. No flag disables x264 alone; only the build option does.
- The two components are modelled separately. The encoder reads only the four fields of the configuration it uses, and the encoder's quality and disable flags are not part of the loader's table in this source.
