/**
 * The encoder fallback chain of old/encoder/video.c, as values: the quality
 * tables, the candidate backends in priority order, the creation requests they
 * give rise to, and a reference definition of "try each candidate in turn until
 * one is created". `rsEncoderCreate` is an oracle: a function from the request it
 * is handed to the code it returns and the options it leaves in the dictionary.
 */
module VideoSpec {

  import opened Wrappers

  /** `ENOSYS` on Linux, and FFmpeg's `AVERROR`, which negates a POSIX error code. */
  const ENOSYS: int := 38

  function AVError(e: int): int {
    -e
  }

  // ---------------------------------------------------------------------------
  // The quality tables, indexed by `recordQuality` (0 low, 1 medium, 2 high)
  // ---------------------------------------------------------------------------

  const NvidiaPreset: seq<string> := ["fast", "medium", "slow"]
  const VaapiQuality: seq<string> := ["30", "20", "10"]
  const OpenH264QMin: seq<string> := ["30", "20", "10"]
  const OpenH264QMax: seq<string> := ["40", "30", "20"]
  const X264Preset: seq<string> := ["ultrafast", "medium", "slower"]

  /** The number of quality tiers every table covers. */
  const Tiers: nat := 3

  // ---------------------------------------------------------------------------
  // Requests, replies and the creation oracle
  // ---------------------------------------------------------------------------

  datatype PixelFormat = YUV420P | NV12 | VAAPIFormat

  datatype HwDeviceType = HwVaapi

  /** An `AVDictionary` of string keys and values. */
  type Options = map<string, string>

  /** `av_dict_set` with flags 0: inserts the key, or overwrites its value. */
  function DictSet(d: Options, key: string, value: string): (r: Options)
    ensures r.Keys == d.Keys + {key}
    ensures r[key] == value
    ensures forall k :: k in d && k != key ==> r[k] == d[k]
  {
    d[key := value]
  }

  /** The `av_dict_set` calls `s`, made one after the other. */
  function DictSetAll(d: Options, s: seq<(string, string)>): Options
    decreases |s|
  {
    if s == [] then d else DictSetAll(DictSet(d, s[0].0, s[0].1), s[1..])
  }

  lemma DictSetOne(d: Options, k: string, v: string)
    ensures DictSetAll(d, [(k, v)]) == DictSet(d, k, v)
  {
    assert [(k, v)][1..] == [];
  }

  lemma DictSetTwo(d: Options, k1: string, v1: string, k2: string, v2: string)
    ensures DictSetAll(d, [(k1, v1), (k2, v2)]) == DictSet(DictSet(d, k1, v1), k2, v2)
  {
    assert [(k1, v1), (k2, v2)][1..] == [(k2, v2)];
    DictSetOne(DictSet(d, k1, v1), k2, v2);
  }

  /** The `RSEncoderParams` of one `rsEncoderCreate` call (the input is implicit). */
  datatype Request = Request(
    name: string,
    format: PixelFormat,
    hwType: Option<HwDeviceType>,
    hwFormat: Option<PixelFormat>,
    options: Options)

  /**
   * What `rsEncoderCreate` does with a request: its return code (non-negative on
   * success) and the dictionary it leaves behind through the `&options` pointer.
   */
  datatype Reply = Reply(code: int, left: Options)

  type Oracle = Request -> Reply

  predicate Succeeded(create: Oracle, req: Request) {
    create(req).code >= 0
  }

  // ---------------------------------------------------------------------------
  // Candidates
  // ---------------------------------------------------------------------------

  /**
   * One attempt as the source writes it: the fixed parameters of the request and
   * the `av_dict_set` calls made just before it, in order.
   */
  datatype Candidate = Candidate(
    name: string,
    format: PixelFormat,
    hwType: Option<HwDeviceType>,
    hwFormat: Option<PixelFormat>,
    settings: seq<(string, string)>)

  /** The request a candidate makes when the dictionary holds `d` beforehand. */
  function RequestFor(c: Candidate, d: Options): (req: Request) {
    Request(c.name, c.format, c.hwType, c.hwFormat, DictSetAll(d, c.settings))
  }

  /** nVidia's encoder takes ordinary frames and no hardware device. */
  function Nvenc(q: nat): Candidate
    requires q < Tiers
  {
    Candidate("h264_nvenc", YUV420P, None, None, [("preset", NvidiaPreset[q])])
  }

  /** The VAAPI encoder is the one that needs a hardware device. */
  function Vaapi(q: nat): Candidate
    requires q < Tiers
  {
    Candidate("h264_vaapi", NV12, Some(HwVaapi), Some(VAAPIFormat), [("global_quality", VaapiQuality[q])])
  }

  function X264(q: nat): Candidate
    requires q < Tiers
  {
    Candidate("libx264", YUV420P, None, None, [("preset", X264Preset[q])])
  }

  function OpenH264(q: nat): Candidate
    requires q < Tiers
  {
    Candidate("libopenh264", YUV420P, None, None, [("qmin", OpenH264QMin[q]), ("qmax", OpenH264QMax[q])])
  }

  /** The part of `rsConfig` the encoder reads. */
  datatype VideoConfig = VideoConfig(
    recordQuality: int,
    disableNvidiaEncoder: bool,
    disableVaapiEncoder: bool,
    disableSoftwareEncoder: bool)

  predicate ValidQuality(cfg: VideoConfig) {
    0 <= cfg.recordQuality < Tiers
  }

  /** The hardware families that are enabled, nVidia first. */
  function HardwareCandidates(cfg: VideoConfig): (cs: seq<Candidate>)
    requires ValidQuality(cfg)
  {
    (if cfg.disableNvidiaEncoder then [] else [Nvenc(cfg.recordQuality)])
    + (if cfg.disableVaapiEncoder then [] else [Vaapi(cfg.recordQuality)])
  }

  /** The software chain: x264 when the build has it, then OpenH264. */
  function SoftwareCandidates(q: nat, x264: bool): (cs: seq<Candidate>)
    requires q < Tiers
  {
    (if x264 then [X264(q)] else []) + [OpenH264(q)]
  }

  /** Every candidate in priority order: the hardware families, then the software chain unless it is disabled. */
  function Candidates(cfg: VideoConfig, x264: bool): (cs: seq<Candidate>)
    requires ValidQuality(cfg)
  {
    HardwareCandidates(cfg)
    + (if cfg.disableSoftwareEncoder then [] else SoftwareCandidates(cfg.recordQuality, x264))
  }

  // ---------------------------------------------------------------------------
  // The reference: try each candidate in turn
  // ---------------------------------------------------------------------------

  /**
   * What trying candidates in order does: the requests made, the request whose
   * encoder was created (if any), and the dictionary left at the end.
   */
  datatype Run = Run(trace: seq<Request>, chosen: Option<Request>, left: Options)

  /**
   * Tries `cs` in order with one dictionary that carries over from attempt to
   * attempt, stopping at the first success.
   */
  function TryInOrder(cs: seq<Candidate>, d: Options, create: Oracle): (r: Run)
    ensures |r.trace| <= |cs|
    ensures r.chosen.Some? ==> r.trace != [] && r.chosen.value == r.trace[|r.trace| - 1]
    decreases |cs|
  {
    if cs == [] then Run([], None, d)
    else
      var req := RequestFor(cs[0], d);
      var reply := create(req);
      if reply.code >= 0 then Run([req], Some(req), reply.left)
      else
        var rest := TryInOrder(cs[1..], reply.left, create);
        Run([req] + rest.trace, rest.chosen, rest.left)
  }

  /** A run that follows the requests `t` already made. */
  function After(t: seq<Request>, r: Run): Run {
    Run(t + r.trace, r.chosen, r.left)
  }

  /** The first attempt of a run: it either creates the encoder or hands over its dictionary. */
  lemma TryFirst(c: Candidate, cs: seq<Candidate>, d: Options, create: Oracle)
    ensures var req := RequestFor(c, d);
      TryInOrder([c] + cs, d, create)
        == if Succeeded(create, req) then Run([req], Some(req), create(req).left)
           else After([req], TryInOrder(cs, create(req).left, create))
  {
    assert ([c] + cs)[0] == c && ([c] + cs)[1..] == cs;
  }

  /** Requests made in two stretches are the requests of both, in order. */
  lemma AfterJoin(t1: seq<Request>, t2: seq<Request>, r: Run)
    ensures After(t1, After(t2, r)) == After(t1 + t2, r)
  {
    assert t1 + (t2 + r.trace) == (t1 + t2) + r.trace;
  }

  /** A run after no requests is the run itself. */
  lemma AfterNone(r: Run)
    ensures After([], r) == r
  {
    assert [] + r.trace == r.trace;
  }

  /** Nothing left to try: the run ends with what the dictionary holds. */
  lemma TryNothing(d: Options, create: Oracle)
    ensures TryInOrder([], d, create) == Run([], None, d)
  {
  }

  /** What `rsVideoEncoderCreateSW` returns, who it created, and what it tried. */
  datatype SoftwareResult = SoftwareResult(ret: int, encoder: Option<Request>, trace: seq<Request>)

  /** The software chain starts from an empty dictionary of its own. */
  function Software(q: nat, x264: bool, create: Oracle): (r: SoftwareResult)
    requires q < Tiers
    ensures r.ret >= 0 <==> r.encoder.Some?
    ensures r.encoder.Some? ==> r.trace != [] && r.encoder.value == r.trace[|r.trace| - 1]
  {
    var run := TryInOrder(SoftwareCandidates(q, x264), map[], create);
    SoftwareResult(if run.chosen.Some? then 0 else AVError(ENOSYS), run.chosen, run.trace)
  }

  /**
   * The outcome of `rsVideoEncoderCreate`: the request whose encoder was created,
   * or the code of the fatal `rsError`; and every request made, in order.
   */
  datatype Acquisition = Acquisition(result: Result<Request, int>, trace: seq<Request>)

  function Acquire(cfg: VideoConfig, x264: bool, create: Oracle): (a: Acquisition)
    requires ValidQuality(cfg)
    ensures a.result.Err? ==> a.result.error == AVError(ENOSYS)
    ensures a.result.Ok? ==> a.trace != [] && a.result.value == a.trace[|a.trace| - 1]
  {
    var hw := TryInOrder(HardwareCandidates(cfg), map[], create);
    if hw.chosen.Some? then Acquisition(Ok(hw.chosen.value), hw.trace)
    else if cfg.disableSoftwareEncoder then Acquisition(Err(AVError(ENOSYS)), hw.trace)
    else
      var sw := Software(cfg.recordQuality, x264, create);
      if sw.ret >= 0 then Acquisition(Ok(sw.encoder.value), hw.trace + sw.trace)
      else Acquisition(Err(AVError(ENOSYS)), hw.trace + sw.trace)
  }
}
