/**
 * What the encoder fallback chain of old/encoder/video.c promises, proved about
 * the reference of VideoSpec (and so, through the methods' postconditions, about
 * the methods of VideoEncoder).
 */
module VideoProperties {

  import opened Wrappers
  import opened Text
  import opened VideoSpec

  // ---------------------------------------------------------------------------
  // The quality tables
  // ---------------------------------------------------------------------------

  /** Every table has an entry for each of the three tiers, and none is empty. */
  lemma TablesComplete()
    ensures |NvidiaPreset| == |VaapiQuality| == |OpenH264QMin| == |OpenH264QMax| == |X264Preset| == Tiers
    ensures forall q :: 0 <= q < Tiers ==>
      NvidiaPreset[q] != [] && VaapiQuality[q] != [] && OpenH264QMin[q] != []
      && OpenH264QMax[q] != [] && X264Preset[q] != []
  {
  }

  /** The decimal values the numeric tables hold. */
  lemma NumericEntries()
    ensures DigitsValue("10") == 10 && DigitsValue("20") == 20
    ensures DigitsValue("30") == 30 && DigitsValue("40") == 40
  {
  }

  /**
   * The numeric tables are decimal numbers; OpenH264's minimum quantiser stays
   * below its maximum at every tier, and every numeric value falls as the tier
   * rises, since a larger value means a lower quality.
   */
  lemma NumericTablesOrdered(q: nat)
    requires q < Tiers
    ensures AllDigits(VaapiQuality[q]) && AllDigits(OpenH264QMin[q]) && AllDigits(OpenH264QMax[q])
    ensures DigitsValue(OpenH264QMin[q]) < DigitsValue(OpenH264QMax[q])
    ensures q + 1 < Tiers ==>
      DigitsValue(VaapiQuality[q]) > DigitsValue(VaapiQuality[q + 1])
      && DigitsValue(OpenH264QMin[q]) > DigitsValue(OpenH264QMin[q + 1])
      && DigitsValue(OpenH264QMax[q]) > DigitsValue(OpenH264QMax[q + 1])
  {
    NumericEntries();
  }

  // ---------------------------------------------------------------------------
  // Trying candidates in order
  // ---------------------------------------------------------------------------

  /**
   * The `i`-th request of a run is the `i`-th candidate's: the first starts from
   * the dictionary `d`, and each later one from what the attempt before it left.
   */
  lemma {:induction false} TryRequests(cs: seq<Candidate>, d: Options, create: Oracle)
    ensures var r := TryInOrder(cs, d, create);
      r.trace != [] ==> r.trace[0] == RequestFor(cs[0], d)
    ensures var r := TryInOrder(cs, d, create);
      forall i :: 0 < i < |r.trace| ==> r.trace[i] == RequestFor(cs[i], create(r.trace[i - 1]).left)
    decreases |cs|
  {
    if cs != [] {
      var req := RequestFor(cs[0], d);
      if !Succeeded(create, req) {
        var left := create(req).left;
        var rest := TryInOrder(cs[1..], left, create);
        TryRequests(cs[1..], left, create);
        var t := [req] + rest.trace;
        assert TryInOrder(cs, d, create).trace == t;
        forall i | 0 < i < |t| ensures t[i] == RequestFor(cs[i], create(t[i - 1]).left) {
          assert t[i] == rest.trace[i - 1] && cs[i] == cs[1..][i - 1];
          if i > 1 { assert t[i - 1] == rest.trace[i - 2]; }
        }
      }
    }
  }

  /** Every attempt but the last failed, and the run created an encoder exactly when the last succeeded. */
  lemma {:induction false} TryStopsAtFirstSuccess(cs: seq<Candidate>, d: Options, create: Oracle)
    ensures var r := TryInOrder(cs, d, create);
      (forall i :: 0 <= i < |r.trace| - 1 ==> !Succeeded(create, r.trace[i]))
      && (r.chosen.Some? <==> r.trace != [] && Succeeded(create, r.trace[|r.trace| - 1]))
    decreases |cs|
  {
    if cs != [] {
      var req := RequestFor(cs[0], d);
      if !Succeeded(create, req) {
        var rest := TryInOrder(cs[1..], create(req).left, create);
        TryStopsAtFirstSuccess(cs[1..], create(req).left, create);
        var t := [req] + rest.trace;
        forall i | 0 <= i < |t| - 1 ensures !Succeeded(create, t[i]) {
          if i > 0 { assert t[i] == rest.trace[i - 1]; }
        }
      }
    }
  }

  /** A run that creates nothing has tried every candidate; a run over candidates tries at least one. */
  lemma {:induction false} TryExhausts(cs: seq<Candidate>, d: Options, create: Oracle)
    ensures cs != [] ==> TryInOrder(cs, d, create).trace != []
    ensures TryInOrder(cs, d, create).chosen.None? ==> |TryInOrder(cs, d, create).trace| == |cs|
    decreases |cs|
  {
    if cs != [] {
      var req := RequestFor(cs[0], d);
      if !Succeeded(create, req) {
        TryExhausts(cs[1..], create(req).left, create);
      }
    }
  }

  // ---------------------------------------------------------------------------
  // What a request carries
  // ---------------------------------------------------------------------------

  /** The dictionary holds every entry of the `av_dict_set` calls `s`. */
  predicate Holds(o: Options, s: seq<(string, string)>) {
    forall j :: 0 <= j < |s| ==> s[j].0 in o && o[s[j].0] == s[j].1
  }

  /** No key is set twice by `s`. */
  predicate DistinctKeys(s: seq<(string, string)>) {
    forall i, j :: 0 <= i < j < |s| ==> s[i].0 != s[j].0
  }

  /** After calls that set distinct keys, each key holds the value it was set to. */
  lemma {:induction false} DictSetAllHolds(d: Options, s: seq<(string, string)>)
    requires DistinctKeys(s)
    ensures Holds(DictSetAll(d, s), s)
    decreases |s|
  {
    if s != [] {
      var d1 := DictSet(d, s[0].0, s[0].1);
      assert DistinctKeys(s[1..]) by {
        forall i, j | 0 <= i < j < |s[1..]| ensures s[1..][i].0 != s[1..][j].0 {
          assert s[1..][i] == s[i + 1] && s[1..][j] == s[j + 1];
        }
      }
      DictSetAllHolds(d1, s[1..]);
      DictSetAllKeeps(d1, s[1..], s[0].0);
      forall j | 0 <= j < |s| ensures s[j].0 in DictSetAll(d, s) && DictSetAll(d, s)[s[j].0] == s[j].1 {
        if j > 0 { assert s[j] == s[1..][j - 1]; }
      }
    }
  }

  /** Calls that do not set `k` leave it as it was. */
  lemma {:induction false} DictSetAllKeeps(d: Options, s: seq<(string, string)>, k: string)
    requires k in d
    requires forall j :: 0 <= j < |s| ==> s[j].0 != k
    ensures k in DictSetAll(d, s) && DictSetAll(d, s)[k] == d[k]
    decreases |s|
  {
    if s != [] {
      DictSetAllKeeps(DictSet(d, s[0].0, s[0].1), s[1..], k);
    }
  }

  /** A request made for candidate `c`: its fixed parameters, and every option the candidate sets. */
  predicate Made(req: Request, c: Candidate) {
    req.name == c.name && req.format == c.format && req.hwType == c.hwType
    && req.hwFormat == c.hwFormat && Holds(req.options, c.settings)
  }

  /** Whatever the dictionary held before, a request carries its candidate's settings. */
  lemma RequestMade(c: Candidate, d: Options)
    requires DistinctKeys(c.settings)
    ensures Made(RequestFor(c, d), c)
  {
    DictSetAllHolds(d, c.settings);
  }

  /** Every request of a run is made for the candidate at its position. */
  lemma RunMade(cs: seq<Candidate>, d: Options, create: Oracle)
    requires forall i :: 0 <= i < |cs| ==> DistinctKeys(cs[i].settings)
    ensures var r := TryInOrder(cs, d, create);
      forall i :: 0 <= i < |r.trace| ==> Made(r.trace[i], cs[i])
  {
    var r := TryInOrder(cs, d, create);
    TryRequests(cs, d, create);
    forall i | 0 <= i < |r.trace| ensures Made(r.trace[i], cs[i]) {
      RequestMade(cs[i], if i == 0 then d else create(r.trace[i - 1]).left);
    }
  }

  /** A run that creates nothing made every attempt, and each one failed. */
  lemma RunFailed(cs: seq<Candidate>, d: Options, create: Oracle)
    requires TryInOrder(cs, d, create).chosen.None?
    ensures var r := TryInOrder(cs, d, create);
      |r.trace| == |cs| && forall i :: 0 <= i < |r.trace| ==> !Succeeded(create, r.trace[i])
  {
    TryExhausts(cs, d, create);
    TryStopsAtFirstSuccess(cs, d, create);
  }

  // ---------------------------------------------------------------------------
  // The software chain, `rsVideoEncoderCreateSW`
  // ---------------------------------------------------------------------------

  /** Every software candidate sets each option once. */
  lemma SoftwareDistinct(q: nat, x264: bool)
    requires q < Tiers
    ensures forall i :: 0 <= i < |SoftwareCandidates(q, x264)| ==> DistinctKeys(SoftwareCandidates(q, x264)[i].settings)
  {
  }

  /** Every hardware candidate sets each option once. */
  lemma HardwareDistinct(cfg: VideoConfig)
    requires ValidQuality(cfg)
    ensures forall i :: 0 <= i < |HardwareCandidates(cfg)| ==> DistinctKeys(HardwareCandidates(cfg)[i].settings)
  {
  }

  /**
   * The software chain returns 0 exactly when one of its attempts creates an
   * encoder, and `AVERROR(ENOSYS)` otherwise, after trying both backends.
   */
  lemma SoftwareReturns(q: nat, x264: bool, create: Oracle)
    requires q < Tiers
    ensures var r := Software(q, x264, create);
      (r.ret == 0 || r.ret == AVError(ENOSYS))
      && (r.ret == 0 <==> exists i :: 0 <= i < |r.trace| && Succeeded(create, r.trace[i]))
      && (r.ret == 0 ==> r.encoder == Some(r.trace[|r.trace| - 1]))
      && (r.ret != 0 ==> |r.trace| == |SoftwareCandidates(q, x264)|)
  {
    var cs := SoftwareCandidates(q, x264);
    var run := TryInOrder(cs, map[], create);
    TryStopsAtFirstSuccess(cs, map[], create);
    TryExhausts(cs, map[], create);
    if run.chosen.Some? {
      assert Succeeded(create, run.trace[|run.trace| - 1]);
    }
  }

  /**
   * x264 is tried first, and only in a build with it; OpenH264 after it, with
   * the dictionary x264's attempt left behind.
   */
  lemma SoftwareOrder(q: nat, x264: bool, create: Oracle)
    requires q < Tiers
    ensures var t := Software(q, x264, create).trace;
      1 <= |t| <= 2
      && (x264 ==> Made(t[0], X264(q)) && t[0].options == DictSet(map[], "preset", X264Preset[q]))
      && (x264 && |t| == 2 ==>
            !Succeeded(create, t[0]) && Made(t[1], OpenH264(q))
            && t[1].options == DictSet(DictSet(create(t[0]).left, "qmin", OpenH264QMin[q]), "qmax", OpenH264QMax[q]))
      && (!x264 ==>
            |t| == 1 && Made(t[0], OpenH264(q))
            && t[0].options == DictSet(DictSet(map[], "qmin", OpenH264QMin[q]), "qmax", OpenH264QMax[q]))
  {
    var cs := SoftwareCandidates(q, x264);
    var t := Software(q, x264, create).trace;
    SoftwareDistinct(q, x264);
    RunMade(cs, map[], create);
    TryRequests(cs, map[], create);
    TryExhausts(cs, map[], create);
    TryStopsAtFirstSuccess(cs, map[], create);
    if x264 {
      DictSetOne(map[], "preset", X264Preset[q]);
      if |t| == 2 {
        DictSetTwo(create(t[0]).left, "qmin", OpenH264QMin[q], "qmax", OpenH264QMax[q]);
      }
    } else {
      DictSetTwo(map[], "qmin", OpenH264QMin[q], "qmax", OpenH264QMax[q]);
    }
  }

  // ---------------------------------------------------------------------------
  // The whole chain, `rsVideoEncoderCreate`
  // ---------------------------------------------------------------------------

  /**
   * The requests of `rsVideoEncoderCreate` are those of the hardware run, then,
   * when no hardware encoder was created and software is enabled, those of the
   * software chain, which is reached only after every hardware attempt failed.
   */
  lemma AcquireShape(cfg: VideoConfig, x264: bool, create: Oracle)
    requires ValidQuality(cfg)
    ensures var hw := TryInOrder(HardwareCandidates(cfg), map[], create);
      var a := Acquire(cfg, x264, create);
      if hw.chosen.Some? || cfg.disableSoftwareEncoder then a.trace == hw.trace
      else a.trace == hw.trace + Software(cfg.recordQuality, x264, create).trace
           && |hw.trace| == |HardwareCandidates(cfg)|
           && forall i :: 0 <= i < |hw.trace| ==> !Succeeded(create, hw.trace[i])
  {
    var hw := TryInOrder(HardwareCandidates(cfg), map[], create);
    if hw.chosen.None? {
      RunFailed(HardwareCandidates(cfg), map[], create);
    }
  }

  /**
   * The attempts follow the priority order: the `i`-th request is made for the
   * `i`-th enabled candidate, with its fixed parameters and its tier's options.
   */
  lemma AttemptOrder(cfg: VideoConfig, x264: bool, create: Oracle)
    requires ValidQuality(cfg)
    ensures var t := Acquire(cfg, x264, create).trace;
      |t| <= |Candidates(cfg, x264)|
      && forall i :: 0 <= i < |t| ==> Made(t[i], Candidates(cfg, x264)[i])
  {
    var q := cfg.recordQuality;
    var hwc := HardwareCandidates(cfg);
    var swc := SoftwareCandidates(q, x264);
    var hw := TryInOrder(hwc, map[], create);
    AcquireShape(cfg, x264, create);
    HardwareDistinct(cfg);
    RunMade(hwc, map[], create);
    if hw.chosen.None? && !cfg.disableSoftwareEncoder {
      SoftwareDistinct(q, x264);
      RunMade(swc, map[], create);
      MadeAppend(hw.trace, TryInOrder(swc, map[], create).trace, hwc, swc);
    } else {
      MadePrefix(hw.trace, hwc, if cfg.disableSoftwareEncoder then [] else swc);
    }
  }

  /** Requests made for a prefix of `c1` are made for a prefix of `c1 + c2`. */
  lemma MadePrefix(t: seq<Request>, c1: seq<Candidate>, c2: seq<Candidate>)
    requires |t| <= |c1|
    requires forall i :: 0 <= i < |t| ==> Made(t[i], c1[i])
    ensures |t| <= |c1 + c2|
    ensures forall i :: 0 <= i < |t| ==> Made(t[i], (c1 + c2)[i])
  {
    forall i | 0 <= i < |t| ensures Made(t[i], (c1 + c2)[i]) {
      assert (c1 + c2)[i] == c1[i];
    }
  }

  /** Requests made for `c1` in full and then for a prefix of `c2` are made for `c1 + c2`. */
  lemma MadeAppend(t1: seq<Request>, t2: seq<Request>, c1: seq<Candidate>, c2: seq<Candidate>)
    requires |t1| == |c1| && |t2| <= |c2|
    requires forall i :: 0 <= i < |t1| ==> Made(t1[i], c1[i])
    requires forall i :: 0 <= i < |t2| ==> Made(t2[i], c2[i])
    ensures |t1 + t2| <= |c1 + c2|
    ensures forall i :: 0 <= i < |t1 + t2| ==> Made((t1 + t2)[i], (c1 + c2)[i])
  {
    forall i | 0 <= i < |t1 + t2| ensures Made((t1 + t2)[i], (c1 + c2)[i]) {
      if i < |t1| {
        assert (t1 + t2)[i] == t1[i] && (c1 + c2)[i] == c1[i];
      } else {
        assert (t1 + t2)[i] == t2[i - |t1|] && (c1 + c2)[i] == c2[i - |t1|];
      }
    }
  }

  /**
   * The first success ends the chain: every attempt but the last failed, an
   * encoder is created exactly when the last attempt succeeded, and it is the
   * one that attempt created.
   */
  lemma FirstSuccessWins(cfg: VideoConfig, x264: bool, create: Oracle)
    requires ValidQuality(cfg)
    ensures var a := Acquire(cfg, x264, create);
      (forall i :: 0 <= i < |a.trace| - 1 ==> !Succeeded(create, a.trace[i]))
      && (a.result.Ok? <==> a.trace != [] && Succeeded(create, a.trace[|a.trace| - 1]))
      && (a.result.Ok? ==> a.result.value == a.trace[|a.trace| - 1])
  {
    var hwc := HardwareCandidates(cfg);
    var rest := if cfg.disableSoftwareEncoder then [] else SoftwareCandidates(cfg.recordQuality, x264);
    var both := TryInOrder(hwc, map[], create).chosen.None? && !cfg.disableSoftwareEncoder;
    AcquireRuns(cfg, x264, create);
    StopsRuns(hwc, rest, both, create);
  }

  /**
   * `rsVideoEncoderCreate` as two runs: the hardware run, and then, when it
   * created nothing and software is enabled, the software run.
   */
  lemma AcquireRuns(cfg: VideoConfig, x264: bool, create: Oracle)
    requires ValidQuality(cfg)
    ensures var hwc := HardwareCandidates(cfg);
      var rest := if cfg.disableSoftwareEncoder then [] else SoftwareCandidates(cfg.recordQuality, x264);
      var hw := TryInOrder(hwc, map[], create);
      var both := hw.chosen.None? && !cfg.disableSoftwareEncoder;
      var pick := if both then TryInOrder(rest, map[], create).chosen else hw.chosen;
      var a := Acquire(cfg, x264, create);
      a.trace == hw.trace + (if both then TryInOrder(rest, map[], create).trace else [])
      && a.result == if pick.Some? then Ok(pick.value) else Err(AVError(ENOSYS))
  {
    var hw := TryInOrder(HardwareCandidates(cfg), map[], create);
    if hw.chosen.Some? || cfg.disableSoftwareEncoder {
      assert hw.trace + [] == hw.trace;
    }
  }

  /**
   * A run over `c1`, then (when `both`, after every attempt of the first
   * failed) a run over `c2`: every attempt but the last failed, and an encoder
   * was created exactly when the last attempt succeeded, by that attempt.
   */
  lemma StopsRuns(c1: seq<Candidate>, c2: seq<Candidate>, both: bool, create: Oracle)
    requires both ==> TryInOrder(c1, map[], create).chosen.None?
    ensures var t := TryInOrder(c1, map[], create).trace
        + if both then TryInOrder(c2, map[], create).trace else [];
      var pick := if both then TryInOrder(c2, map[], create).chosen else TryInOrder(c1, map[], create).chosen;
      (forall i :: 0 <= i < |t| - 1 ==> !Succeeded(create, t[i]))
      && (pick.Some? <==> t != [] && Succeeded(create, t[|t| - 1]))
      && (pick.Some? ==> pick.value == t[|t| - 1])
  {
    var r1 := TryInOrder(c1, map[], create);
    if both {
      StopsAfterFailures(c1, c2, create);
    } else {
      TryStopsAtFirstSuccess(c1, map[], create);
      assert r1.trace + [] == r1.trace;
    }
  }

  /** A run that failed throughout, then a second run: together they stop where the second does. */
  lemma StopsAfterFailures(c1: seq<Candidate>, c2: seq<Candidate>, create: Oracle)
    requires TryInOrder(c1, map[], create).chosen.None?
    ensures var r2 := TryInOrder(c2, map[], create);
      var t := TryInOrder(c1, map[], create).trace + r2.trace;
      (forall i :: 0 <= i < |t| - 1 ==> !Succeeded(create, t[i]))
      && (r2.chosen.Some? <==> t != [] && Succeeded(create, t[|t| - 1]))
      && (r2.chosen.Some? ==> r2.chosen.value == t[|t| - 1])
  {
    var r1 := TryInOrder(c1, map[], create);
    var r2 := TryInOrder(c2, map[], create);
    RunFailed(c1, map[], create);
    TryStopsAtFirstSuccess(c2, map[], create);
    StopsJoined(r1.trace, r2.trace, r2.chosen, create);
  }

  /**
   * Failed attempts followed by a run that stops at its first success: the whole
   * stops there too, and creates what that run created.
   */
  lemma StopsJoined(t1: seq<Request>, t2: seq<Request>, pick: Option<Request>, create: Oracle)
    requires forall i :: 0 <= i < |t1| ==> !Succeeded(create, t1[i])
    requires forall i :: 0 <= i < |t2| - 1 ==> !Succeeded(create, t2[i])
    requires pick.Some? <==> t2 != [] && Succeeded(create, t2[|t2| - 1])
    requires pick.Some? ==> t2 != [] && pick.value == t2[|t2| - 1]
    ensures var t := t1 + t2;
      (forall i :: 0 <= i < |t| - 1 ==> !Succeeded(create, t[i]))
      && (pick.Some? <==> t != [] && Succeeded(create, t[|t| - 1]))
      && (pick.Some? ==> pick.value == t[|t| - 1])
  {
    if t2 == [] {
      assert t1 + t2 == t1;
    } else {
      StopsAppend(t1, t2, create);
    }
  }

  /** Failed attempts and then a run that stops at its last attempt: the whole stops there too. */
  lemma StopsAppend(t1: seq<Request>, t2: seq<Request>, create: Oracle)
    requires t2 != []
    requires forall i :: 0 <= i < |t1| ==> !Succeeded(create, t1[i])
    requires forall i :: 0 <= i < |t2| - 1 ==> !Succeeded(create, t2[i])
    ensures forall i :: 0 <= i < |t1 + t2| - 1 ==> !Succeeded(create, (t1 + t2)[i])
    ensures (t1 + t2)[|t1 + t2| - 1] == t2[|t2| - 1]
  {
    FailuresAppend(t1, t2, |t2| - 1, create);
  }

  /** Failed attempts followed by the first `k` attempts of a second run, all failed. */
  lemma FailuresAppend(t1: seq<Request>, t2: seq<Request>, k: nat, create: Oracle)
    requires k <= |t2|
    requires forall i :: 0 <= i < |t1| ==> !Succeeded(create, t1[i])
    requires forall i :: 0 <= i < k ==> !Succeeded(create, t2[i])
    ensures forall i :: 0 <= i < |t1| + k ==> !Succeeded(create, (t1 + t2)[i])
  {
    forall i | 0 <= i < |t1| + k ensures !Succeeded(create, (t1 + t2)[i]) {
      if i < |t1| {
        assert (t1 + t2)[i] == t1[i];
      } else {
        assert (t1 + t2)[i] == t2[i - |t1|];
      }
    }
  }

  /**
   * `rsError(AVERROR(ENOSYS))` is reached exactly when every enabled candidate
   * was tried and failed (in particular when every family is disabled).
   */
  lemma FatalWhenAllFail(cfg: VideoConfig, x264: bool, create: Oracle)
    requires ValidQuality(cfg)
    ensures var a := Acquire(cfg, x264, create);
      (a.result.Err? ==> a.result.error == AVError(ENOSYS))
      && (a.result.Err? <==>
            |a.trace| == |Candidates(cfg, x264)|
            && forall i :: 0 <= i < |a.trace| ==> !Succeeded(create, a.trace[i]))
  {
    var q := cfg.recordQuality;
    var hwc := HardwareCandidates(cfg);
    var swc := SoftwareCandidates(q, x264);
    var hw := TryInOrder(hwc, map[], create);
    AcquireShape(cfg, x264, create);
    FirstSuccessWins(cfg, x264, create);
    if hw.chosen.None? && !cfg.disableSoftwareEncoder {
      var sw := TryInOrder(swc, map[], create);
      if sw.chosen.None? {
        RunFailed(swc, map[], create);
        FailuresAppend(hw.trace, sw.trace, |sw.trace|, create);
      }
    } else if hw.chosen.None? {
      RunFailed(hwc, map[], create);
    }
  }

  /** What the enabled candidates are: each family appears only when enabled, and only VAAPI needs a device. */
  lemma CandidateFacts(cfg: VideoConfig, x264: bool)
    requires ValidQuality(cfg)
    ensures var cs := Candidates(cfg, x264);
      forall i :: 0 <= i < |cs| ==>
        (cs[i].name == "h264_nvenc" ==> !cfg.disableNvidiaEncoder)
        && (cs[i].name == "h264_vaapi" ==> !cfg.disableVaapiEncoder)
        && (cs[i].name == "libx264" ==> x264 && !cfg.disableSoftwareEncoder)
        && (cs[i].name == "libopenh264" ==> !cfg.disableSoftwareEncoder)
        && (cs[i].hwType.Some? <==> cs[i].name == "h264_vaapi")
        && (cs[i].hwType.Some? ==> cs[i].hwType == Some(HwVaapi) && cs[i].hwFormat == Some(VAAPIFormat))
        && (cs[i].hwType.None? ==> cs[i].hwFormat.None?)
  {
    var q := cfg.recordQuality;
    var cs := Candidates(cfg, x264);
    var hw := HardwareCandidates(cfg);
    var sw := if cfg.disableSoftwareEncoder then [] else SoftwareCandidates(q, x264);
    assert cs == hw + sw;
    forall i | 0 <= i < |cs|
      ensures Enabled(cs[i], cfg, x264)
    {
      if i < |hw| {
        assert cs[i] == hw[i];
      } else {
        assert cs[i] == sw[i - |hw|];
      }
      EnabledFacts(cs[i], cfg, x264);
    }
  }

  /** Candidate `c` is the candidate of a family that is enabled (x264 only in its build). */
  predicate Enabled(c: Candidate, cfg: VideoConfig, x264: bool)
    requires ValidQuality(cfg)
  {
    var q := cfg.recordQuality;
    (c == Nvenc(q) && !cfg.disableNvidiaEncoder) || (c == Vaapi(q) && !cfg.disableVaapiEncoder)
    || (c == X264(q) && x264 && !cfg.disableSoftwareEncoder) || (c == OpenH264(q) && !cfg.disableSoftwareEncoder)
  }

  /** What an enabled candidate's name and device say about the configuration. */
  lemma EnabledFacts(c: Candidate, cfg: VideoConfig, x264: bool)
    requires ValidQuality(cfg) && Enabled(c, cfg, x264)
    ensures (c.name == "h264_nvenc" ==> !cfg.disableNvidiaEncoder)
        && (c.name == "h264_vaapi" ==> !cfg.disableVaapiEncoder)
        && (c.name == "libx264" ==> x264 && !cfg.disableSoftwareEncoder)
        && (c.name == "libopenh264" ==> !cfg.disableSoftwareEncoder)
        && (c.hwType.Some? <==> c.name == "h264_vaapi")
        && (c.hwType.Some? ==> c.hwType == Some(HwVaapi) && c.hwFormat == Some(VAAPIFormat))
        && (c.hwType.None? ==> c.hwFormat.None?)
  {
    NamesDiffer();
  }

  /** The four encoder names are distinct. */
  lemma NamesDiffer()
    ensures "h264_nvenc" != "h264_vaapi" && "h264_nvenc" != "libx264" && "h264_nvenc" != "libopenh264"
    ensures "h264_vaapi" != "libx264" && "h264_vaapi" != "libopenh264" && "libx264" != "libopenh264"
  {
    assert "h264_nvenc"[5] != "h264_vaapi"[5];
    assert "h264_nvenc"[0] != "libx264"[0] && "h264_nvenc"[0] != "libopenh264"[0];
    assert "h264_vaapi"[0] != "libx264"[0] && "h264_vaapi"[0] != "libopenh264"[0];
    assert |"libx264"| != |"libopenh264"|;
  }

  /**
   * A disabled family is never attempted, nor x264 in a build without it; and
   * exactly the VAAPI requests carry a hardware device type and format.
   */
  lemma DisabledNeverAttempted(cfg: VideoConfig, x264: bool, create: Oracle)
    requires ValidQuality(cfg)
    ensures var t := Acquire(cfg, x264, create).trace;
      forall i :: 0 <= i < |t| ==>
        (cfg.disableNvidiaEncoder ==> t[i].name != "h264_nvenc")
        && (cfg.disableVaapiEncoder ==> t[i].name != "h264_vaapi")
        && (cfg.disableSoftwareEncoder ==> t[i].name != "libx264" && t[i].name != "libopenh264")
        && (!x264 ==> t[i].name != "libx264")
  {
    AttemptOrder(cfg, x264, create);
    CandidateFacts(cfg, x264);
  }

  /** Only the VAAPI request asks for a hardware device, and then for both its type and its format. */
  lemma OnlyVaapiNeedsDevice(cfg: VideoConfig, x264: bool, create: Oracle)
    requires ValidQuality(cfg)
    ensures var t := Acquire(cfg, x264, create).trace;
      forall i :: 0 <= i < |t| ==>
        (t[i].hwType.Some? <==> t[i].name == "h264_vaapi")
        && (t[i].hwType.Some? ==> t[i].hwType == Some(HwVaapi) && t[i].hwFormat == Some(VAAPIFormat))
        && (t[i].hwType.None? ==> t[i].hwFormat.None?)
  {
    AttemptOrder(cfg, x264, create);
    CandidateFacts(cfg, x264);
  }

  /** With every family disabled nothing is attempted and the call ends fatally. */
  lemma AllDisabled(cfg: VideoConfig, x264: bool, create: Oracle)
    requires ValidQuality(cfg)
    requires cfg.disableNvidiaEncoder && cfg.disableVaapiEncoder && cfg.disableSoftwareEncoder
    ensures Acquire(cfg, x264, create) == Acquisition(Err(AVError(ENOSYS)), [])
  {
    TryNothing(map[], create);
  }

  /**
   * The dictionary of each function is one variable: a request starts from what
   * the attempt before it left, except the first of `rsVideoEncoderCreate` and
   * the first of the software chain, which start from an empty dictionary.
   */
  lemma OptionsCarryOver(cfg: VideoConfig, x264: bool, create: Oracle)
    requires ValidQuality(cfg)
    ensures var t := Acquire(cfg, x264, create).trace;
      |t| <= |Candidates(cfg, x264)|
      && forall i :: 0 <= i < |t| ==> CarriedAt(t, Candidates(cfg, x264), |HardwareCandidates(cfg)|, i, create)
  {
    var hwc := HardwareCandidates(cfg);
    var rest := if cfg.disableSoftwareEncoder then [] else SoftwareCandidates(cfg.recordQuality, x264);
    var both := TryInOrder(hwc, map[], create).chosen.None? && !cfg.disableSoftwareEncoder;
    AcquireRuns(cfg, x264, create);
    CarriedRuns(hwc, rest, Candidates(cfg, x264), both, Acquire(cfg, x264, create).trace, create);
  }

  /**
   * A run over `c1` from an empty dictionary, then (when `both`, after every
   * attempt of the first failed) a run over `c2` from an empty dictionary.
   */
  lemma CarriedRuns(c1: seq<Candidate>, c2: seq<Candidate>, cs: seq<Candidate>, both: bool, t: seq<Request>, create: Oracle)
    requires cs == c1 + c2
    requires both ==> TryInOrder(c1, map[], create).chosen.None?
    requires t == TryInOrder(c1, map[], create).trace + if both then TryInOrder(c2, map[], create).trace else []
    ensures |t| <= |cs|
    ensures forall i :: 0 <= i < |t| ==> CarriedAt(t, cs, |c1|, i, create)
  {
    var r1 := TryInOrder(c1, map[], create);
    TryRequests(c1, map[], create);
    TryRequests(c2, map[], create);
    if both {
      TryExhausts(c1, map[], create);
    }
    CarriedAppend(r1.trace, if both then TryInOrder(c2, map[], create).trace else [], c1, c2, create);
  }

  /**
   * The `i`-th request is made for the `i`-th candidate from the dictionary the
   * attempt before it left, or from an empty one at the start and at `restart`.
   */
  predicate CarriedAt(t: seq<Request>, cs: seq<Candidate>, restart: nat, i: nat, create: Oracle)
    requires i < |t| <= |cs|
  {
    t[i] == RequestFor(cs[i], if i == 0 || i == restart then map[] else create(t[i - 1]).left)
  }

  /**
   * Two runs that each start from an empty dictionary, glued together: the
   * second starts afresh at position `|c1|`.
   */
  lemma CarriedAppend(t1: seq<Request>, t2: seq<Request>, c1: seq<Candidate>, c2: seq<Candidate>, create: Oracle)
    requires |t1| <= |c1| && |t2| <= |c2| && (t2 != [] ==> |t1| == |c1|)
    requires t1 != [] ==> t1[0] == RequestFor(c1[0], map[])
    requires forall i :: 0 < i < |t1| ==> t1[i] == RequestFor(c1[i], create(t1[i - 1]).left)
    requires t2 != [] ==> t2[0] == RequestFor(c2[0], map[])
    requires forall i :: 0 < i < |t2| ==> t2[i] == RequestFor(c2[i], create(t2[i - 1]).left)
    ensures |t1 + t2| <= |c1 + c2|
    ensures forall i :: 0 <= i < |t1 + t2| ==>
      (t1 + t2)[i] == RequestFor((c1 + c2)[i], if i == 0 || i == |c1| then map[] else create((t1 + t2)[i - 1]).left)
  {
    var t := t1 + t2;
    var cs := c1 + c2;
    forall i | 0 <= i < |t|
      ensures t[i] == RequestFor(cs[i], if i == 0 || i == |c1| then map[] else create(t[i - 1]).left)
    {
      if i >= |t1| {
        assert t[i] == t2[i - |t1|] && cs[i] == c2[i - |t1|];
        if i > |t1| { assert t[i - 1] == t2[i - 1 - |t1|]; }
      } else {
        assert t[i] == t1[i] && cs[i] == c1[i];
        if i > 0 { assert t[i - 1] == t1[i - 1]; }
      }
    }
  }

  // ---------------------------------------------------------------------------
  // Scenarios
  // ---------------------------------------------------------------------------

  /**
   * Hardware disabled, x264 built in, medium tier: the only request is x264's
   * with preset "medium", and when it succeeds that is the encoder.
   */
  lemma SoftwareOnlyScenario(create: Oracle)
    requires Succeeded(create, Request("libx264", YUV420P, None, None, map["preset" := "medium"]))
    ensures var req := Request("libx264", YUV420P, None, None, map["preset" := "medium"]);
      Acquire(VideoConfig(1, true, true, false), true, create) == Acquisition(Ok(req), [req])
  {
    var req := Request("libx264", YUV420P, None, None, map["preset" := "medium"]);
    TryNothing(map[], create);
    TryFirst(X264(1), [OpenH264(1)], map[], create);
    DictSetOne(map[], "preset", X264Preset[1]);
    assert RequestFor(X264(1), map[]) == req;
  }

  /**
   * When the nVidia encoder cannot be created (say, no device), VAAPI is tried
   * next, with its tier's global_quality added to what the nVidia attempt left.
   */
  lemma NvencFallsBack(cfg: VideoConfig, x264: bool, create: Oracle)
    requires ValidQuality(cfg) && !cfg.disableNvidiaEncoder && !cfg.disableVaapiEncoder
    requires !Succeeded(create, RequestFor(Nvenc(cfg.recordQuality), map[]))
    ensures var q := cfg.recordQuality;
      var first := Request("h264_nvenc", YUV420P, None, None, map["preset" := NvidiaPreset[q]]);
      var t := Acquire(cfg, x264, create).trace;
      |t| >= 2 && t[0] == first
      && t[1] == Request("h264_vaapi", NV12, Some(HwVaapi), Some(VAAPIFormat),
                         create(first).left["global_quality" := VaapiQuality[q]])
  {
    var q := cfg.recordQuality;
    var first := RequestFor(Nvenc(q), map[]);
    DictSetOne(map[], "preset", NvidiaPreset[q]);
    TryFirst(Nvenc(q), [Vaapi(q)], map[], create);
    DictSetOne(create(first).left, "global_quality", VaapiQuality[q]);
    TryFirst(Vaapi(q), [], create(first).left, create);
    assert HardwareCandidates(cfg) == [Nvenc(q), Vaapi(q)];
    AcquireShape(cfg, x264, create);
  }
}
