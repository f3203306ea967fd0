/** The anoisecanceller filter (af_anoisecanceller.c): noise suppression by an opaque NS engine. */
module NoiseCanceller {
  import opened Wrappers
  import opened CTypes
  import opened Lifecycle
  import opened SampleBridge

  /** enum nsLevel, in declaration order. */
  datatype NsLevel = Low | Moderate | High | VeryHigh

  /** Arguments of init_NS_API(channels, sampleRate, level), in that order. */
  datatype NsParams = NsParams(channels: int, sampleRate: int, level: NsLevel)

  /** The calls on a live NS engine: runNS_API with its input length. */
  datatype NsOp = RunNs(inLen: int)

  /** The engine is always created at the strongest suppression level. */
  function ParamsFor(f: Format): (p: NsParams)
    ensures p.channels == f.channels && p.sampleRate == f.sampleRate && p.level == VeryHigh
  {
    NsParams(f.channels, f.sampleRate, VeryHigh)
  }

  /** ANoiseCancellerContext: the engine binding. */
  class NoiseCancellerFilter {
    var channels: int
    var sampleRate: int
    var handle: Option<Handle>
    const engine: Engine<NsParams, NsOp>

    /** The filter owns exactly the engine its log says is live. */
    ghost predicate Valid()
      reads this, engine
    {
      Replay(engine.calls) == Owns(handle)
    }

    function Bound(): Binding
      reads this
    {
      Binding(handle, Format(channels, sampleRate))
    }

    /** The private context as the framework allocates it: zeroed. */
    constructor ()
      ensures Valid() && fresh(engine) && engine.calls == []
      ensures handle == None && channels == 0 && sampleRate == 0
    {
      channels, sampleRate := 0, 0;
      handle := None;
      engine := new Engine();
    }

    /**
     * init: NULL the handle and succeed. No engine call is made, so the
     * filter stays consistent only when no engine was live.
     */
    method Init() returns (ret: int)
      modifies this
      ensures ret == 0 && handle == None
      ensures channels == old(channels) && sampleRate == old(sampleRate)
      ensures Valid() <==> Replay(engine.calls) == Owns(None)
    {
      handle := None;
      ret := 0;
    }

    /** uninit: terminate whatever the handle holds (possibly NULL) and NULL it. */
    method Uninit()
      requires Valid()
      modifies this, engine
      ensures Valid() && handle == None
      ensures engine.calls == old(engine.calls) + [Terminate(old(handle))]
      ensures channels == old(channels) && sampleRate == old(sampleRate)
    {
      engine.CallTerminate(handle);
      handle := None;
    }

    /**
     * The first half of filter_frame: terminate an engine created for another
     * format, then, with no engine, store the frame's format and call
     * init_NS_API(channels, sample_rate, kVeryHigh).
     */
    method Rebind(frame: Frame, created: Option<Handle>)
      requires Valid()
      modifies this, engine
      ensures Valid()
      ensures var r := Bind<NsParams, NsOp>(old(Bound()), frame.Fmt(), ParamsFor(frame.Fmt()), created);
              Bound() == r.after && engine.calls == old(engine.calls) + r.calls
    {
      ghost var b, f := Bound(), frame.Fmt();
      ghost var args := ParamsFor(frame.Fmt());
      if !NeedsCreate(b, f) {
        BindKeepsMatchingEngine<NsParams, NsOp>(b, f, args, created);
      } else if b.handle.None? {
        BindCreatesWhenUnbound<NsParams, NsOp>(b, f, args, created);
      } else {
        BindReplacesStaleEngine<NsParams, NsOp>(b, f, args, created);
      }
      if handle.Some? && (channels != frame.channels || sampleRate != frame.sampleRate) {
        engine.CallTerminate(handle);
        handle := None;
      }
      if handle.None? {
        channels := frame.channels;
        sampleRate := frame.sampleRate;
        handle := engine.CallCreate(NsParams(channels, sampleRate, VeryHigh), created);
      }
    }

    /**
     * filter_frame: the bind phase, -1 on a NULL engine; otherwise run the
     * engine on nb_samples*channels samples, request an output frame of
     * out_size/channels samples, copy the properties and the out_size
     * samples the engine returned, and pass the frame on.
     * `created` and `produced` are the engine's answers to create and run.
     */
    method FilterFrame(frame: Frame, created: Option<Handle>, produced: seq<int16>, host: Host)
      returns (ret: int, out: Option<OutFrame>)
      requires Valid()
      requires frame.channels > 0
      modifies this, engine
      ensures Valid()
      ensures var r := Bind<NsParams, NsOp>(old(Bound()), frame.Fmt(), ParamsFor(frame.Fmt()), created);
              Bound() == r.after &&
              engine.calls == old(engine.calls) + r.calls
                + if handle.Some? then [Use(handle.value, RunNs(frame.nbSamples * frame.channels))] else []
      ensures handle.None? ==> ret == -1 && out.None?
      ensures handle.Some? && !host.outBuffer ==> ret == AvError(ENOMEM) && out.None?
      ensures handle.Some? && host.outBuffer && host.copyProps < 0 ==> ret == host.copyProps && out.None?
      ensures handle.Some? && host.outBuffer && host.copyProps >= 0 ==>
                ret == host.downstream && out.Some? && fresh(out.value.data)
                && out.value.nbSamples == CDiv(|produced|, frame.channels)
                && out.value.data[..] == produced
    {
      ghost var r := Bind<NsParams, NsOp>(Bound(), frame.Fmt(), ParamsFor(frame.Fmt()), created);
      Rebind(frame, created);
      if handle.None? {
        return -1, None;
      }
      assert handle == r.after.handle && channels == frame.channels;
      var outSize := |produced|;
      engine.CallUse(handle.value, RunNs(frame.nbSamples * channels));
      assert Valid() && Bound() == r.after;
      if !host.outBuffer {
        return AvError(ENOMEM), None;
      }
      var buf := new int16[outSize];
      if host.copyProps < 0 {
        return host.copyProps, None;
      }
      Memcpy(buf, produced, outSize);
      assert buf[..] == buf[..outSize] && produced[..outSize] == produced;
      ret, out := host.downstream, Some(OutFrame(CDiv(outSize, channels), buf));
    }
  }
}
