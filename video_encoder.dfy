/**
 * `rsVideoEncoderCreate` and `rsVideoEncoderCreateSW` of old/encoder/video.c as
 * they run: guarded attempts with early returns, one options dictionary that
 * `av_dict_set` and each creation call change in place, and the request that
 * created the encoder written to the output. Each method also returns the
 * requests it made, in order, and is proved against the reference of VideoSpec:
 * the ghost `pending` holds the candidates not tried yet, and after every failed
 * attempt the whole reference run is the requests made so far followed by a
 * run over `pending` from the current dictionary.
 */
module VideoEncoder {

  import opened Wrappers
  import opened VideoSpec

  /**
   * `rsVideoEncoderCreateSW`: x264 (only in a build with x264), then OpenH264;
   * 0 as soon as one is created, `AVERROR(ENOSYS)` when neither is.
   */
  method CreateSoftware(q: nat, withX264: bool, create: Oracle)
    returns (ret: int, encoder: Option<Request>, trace: seq<Request>)
    requires q < Tiers
    ensures SoftwareResult(ret, encoder, trace) == Software(q, withX264, create)
  {
    ghost var run := TryInOrder(SoftwareCandidates(q, withX264), map[], create);
    var options: Options := map[];
    trace := [];
    ghost var pending := [OpenH264(q)];
    if withX264 {
      TryFirst(X264(q), pending, options, create);
      options := DictSet(options, "preset", X264Preset[q]);
      var req := Request("libx264", YUV420P, None, None, options);
      DictSetOne(map[], "preset", X264Preset[q]);
      assert req == RequestFor(X264(q), map[]);
      var reply := create(req);
      trace := trace + [req];
      options := reply.left;
      if reply.code >= 0 {
        return 0, Some(req), trace;
      }
    } else {
      assert SoftwareCandidates(q, withX264) == pending;
    }
    assert run == After(trace, TryInOrder(pending, options, create));
    TryFirst(OpenH264(q), [], options, create);
    ghost var before := options;
    options := DictSet(options, "qmin", OpenH264QMin[q]);
    options := DictSet(options, "qmax", OpenH264QMax[q]);
    var req := Request("libopenh264", YUV420P, None, None, options);
    DictSetTwo(before, "qmin", OpenH264QMin[q], "qmax", OpenH264QMax[q]);
    assert req == RequestFor(OpenH264(q), before);
    var reply := create(req);
    trace := trace + [req];
    options := reply.left;
    if reply.code >= 0 {
      return 0, Some(req), trace;
    }
    TryNothing(options, create);
    return AVError(ENOSYS), None, trace;
  }

  /**
   * `rsVideoEncoderCreate`: nVidia, then VAAPI, then the software chain, each
   * unless its family is disabled; the first encoder created is the result, and
   * when none is the call ends with the fatal `rsError(AVERROR(ENOSYS))`.
   */
  method CreateVideoEncoder(cfg: VideoConfig, withX264: bool, create: Oracle)
    returns (res: Result<Request, int>, trace: seq<Request>)
    requires ValidQuality(cfg)
    ensures Acquisition(res, trace) == Acquire(cfg, withX264, create)
  {
    var q := cfg.recordQuality;
    ghost var run := TryInOrder(HardwareCandidates(cfg), map[], create);
    var options: Options := map[];
    trace := [];
    ghost var pending := if cfg.disableVaapiEncoder then [] else [Vaapi(q)];
    if !cfg.disableNvidiaEncoder {
      assert HardwareCandidates(cfg) == [Nvenc(q)] + pending;
      TryFirst(Nvenc(q), pending, options, create);
      options := DictSet(options, "preset", NvidiaPreset[q]);
      var req := Request("h264_nvenc", YUV420P, None, None, options);
      DictSetOne(map[], "preset", NvidiaPreset[q]);
      assert req == RequestFor(Nvenc(q), map[]);
      var reply := create(req);
      trace := trace + [req];
      options := reply.left;
      if reply.code >= 0 {
        return Ok(req), trace;
      }
      assert trace == [req] && !Succeeded(create, req);
    } else {
      assert HardwareCandidates(cfg) == pending;
      AfterNone(run);
    }
    assert run == After(trace, TryInOrder(pending, options, create));
    if !cfg.disableVaapiEncoder {
      assert pending == [Vaapi(q)] + [];
      TryFirst(Vaapi(q), [], options, create);
      ghost var before := options;
      ghost var made := trace;
      options := DictSet(options, "global_quality", VaapiQuality[q]);
      var req := Request("h264_vaapi", NV12, Some(HwVaapi), Some(VAAPIFormat), options);
      DictSetOne(before, "global_quality", VaapiQuality[q]);
      assert req == RequestFor(Vaapi(q), before);
      var reply := create(req);
      trace := trace + [req];
      options := reply.left;
      if reply.code >= 0 {
        return Ok(req), trace;
      }
      AfterJoin(made, [req], TryInOrder([], options, create));
    }
    assert run == After(trace, TryInOrder([], options, create));
    TryNothing(options, create);
    assert trace + [] == trace;
    assert run.chosen.None? && run.trace == trace;
    if !cfg.disableSoftwareEncoder {
      var ret, encoder, swTrace := CreateSoftware(q, withX264, create);
      trace := trace + swTrace;
      if ret >= 0 {
        return Ok(encoder.value), trace;
      }
    }
    return Err(AVError(ENOSYS)), trace;
  }
}
