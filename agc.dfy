/** The agc filter (af_agc.c): automatic gain control in front of an opaque AGC engine. */
module Agc {
  import opened Wrappers
  import opened CTypes
  import opened Lifecycle
  import opened SampleBridge

  /** Arguments of init_AGC_API(sampleRate, chan_num, targetDBFS), in that order. */
  datatype AgcParams = AgcParams(sampleRate: int, channels: int, targetDBFS: int)

  /** The calls on a live AGC engine: runAGC_API with its input length. */
  datatype AgcOp = RunAgc(inLen: int)

  /** AGCContext: the `targetDBFS` option and the engine binding. */
  class AgcFilter {
    var channels: int
    var sampleRate: int
    const targetDBFS: int
    var handle: Option<Handle>
    const engine: Engine<AgcParams, AgcOp>

    /** The filter owns exactly the engine its log says is live. */
    ghost predicate Valid()
      reads this, engine
    {
      Replay(engine.calls) == Owns(handle)
    }

    function Bound(): Binding
      reads this
    {
      Binding(handle, Format(channels, sampleRate))
    }

    /** The private context as the framework allocates it: zeroed, with the option applied. */
    constructor (targetDBFS: int)
      ensures Valid() && fresh(engine) && engine.calls == []
      ensures handle == None && channels == 0 && sampleRate == 0 && this.targetDBFS == targetDBFS
    {
      channels, sampleRate := 0, 0;
      this.targetDBFS := targetDBFS;
      handle := None;
      engine := new Engine();
    }

    /**
     * init: NULL the handle and succeed. No engine call is made, so a live
     * handle would be dropped, not terminated: the filter stays consistent
     * only when no engine was live.
     */
    method Init() returns (ret: int)
      modifies this
      ensures ret == 0 && handle == None
      ensures channels == old(channels) && sampleRate == old(sampleRate)
      ensures Valid() <==> Replay(engine.calls) == Owns(None)
    {
      handle := None;
      ret := 0;
    }

    /** uninit: terminate whatever the handle holds (possibly NULL) and NULL it. */
    method Uninit()
      requires Valid()
      modifies this, engine
      ensures Valid() && handle == None
      ensures engine.calls == old(engine.calls) + [Terminate(old(handle))]
      ensures channels == old(channels) && sampleRate == old(sampleRate)
    {
      engine.CallTerminate(handle);
      handle := None;
    }

    /**
     * The first half of filter_frame: terminate an engine created for another
     * format, then, with no engine, store the frame's format and call
     * init_AGC_API(sample_rate, channels, targetDBFS).
     */
    method Rebind(frame: Frame, created: Option<Handle>)
      requires Valid()
      modifies this, engine
      ensures Valid()
      ensures var r := Bind<AgcParams, AgcOp>(old(Bound()), frame.Fmt(),
                         AgcParams(frame.sampleRate, frame.channels, targetDBFS), created);
              Bound() == r.after && engine.calls == old(engine.calls) + r.calls
    {
      ghost var b, f := Bound(), frame.Fmt();
      ghost var args := AgcParams(frame.sampleRate, frame.channels, targetDBFS);
      if !NeedsCreate(b, f) {
        BindKeepsMatchingEngine<AgcParams, AgcOp>(b, f, args, created);
      } else if b.handle.None? {
        BindCreatesWhenUnbound<AgcParams, AgcOp>(b, f, args, created);
      } else {
        BindReplacesStaleEngine<AgcParams, AgcOp>(b, f, args, created);
      }
      if handle.Some? && (channels != frame.channels || sampleRate != frame.sampleRate) {
        engine.CallTerminate(handle);
        handle := None;
      }
      if handle.None? {
        channels := frame.channels;
        sampleRate := frame.sampleRate;
        handle := engine.CallCreate(AgcParams(sampleRate, channels, targetDBFS), created);
      }
    }

    /**
     * filter_frame: the common bind phase with init_AGC_API(sample_rate,
     * channels, targetDBFS); on a NULL engine return -1. Otherwise run the
     * engine on nb_samples*channels samples, request an output frame of
     * out_size/channels samples, copy its properties and the out_size
     * samples the engine returned, and pass it on.
     * `created` and `produced` are the engine's answers to create and run.
     */
    method FilterFrame(frame: Frame, created: Option<Handle>, produced: seq<int16>, host: Host)
      returns (ret: int, out: Option<OutFrame>)
      requires Valid()
      requires frame.channels > 0
      modifies this, engine
      ensures Valid()
      ensures var r := Bind<AgcParams, AgcOp>(old(Bound()), frame.Fmt(),
                         AgcParams(frame.sampleRate, frame.channels, targetDBFS), created);
              Bound() == r.after &&
              engine.calls == old(engine.calls) + r.calls
                + if handle.Some? then [Use(handle.value, RunAgc(frame.nbSamples * frame.channels))] else []
      ensures handle.None? ==> ret == -1 && out.None?
      ensures handle.Some? && !host.outBuffer ==> ret == AvError(ENOMEM) && out.None?
      ensures handle.Some? && host.outBuffer && host.copyProps < 0 ==> ret == host.copyProps && out.None?
      ensures handle.Some? && host.outBuffer && host.copyProps >= 0 ==>
                ret == host.downstream && out.Some? && fresh(out.value.data)
                && out.value.nbSamples == CDiv(|produced|, frame.channels)
                && out.value.data[..] == produced
    {
      ghost var r := Bind<AgcParams, AgcOp>(Bound(), frame.Fmt(),
                       AgcParams(frame.sampleRate, frame.channels, targetDBFS), created);
      Rebind(frame, created);
      if handle.None? {
        return -1, None;
      }
      assert handle == r.after.handle && channels == frame.channels;
      var outSize := |produced|;
      engine.CallUse(handle.value, RunAgc(frame.nbSamples * channels));
      assert Valid() && Bound() == r.after;
      if !host.outBuffer {
        return AvError(ENOMEM), None;
      }
      var buf := new int16[outSize];
      if host.copyProps < 0 {
        return host.copyProps, None;
      }
      Memcpy(buf, produced, outSize);
      assert buf[..] == buf[..outSize] && produced[..outSize] == produced;
      ret, out := host.downstream, Some(OutFrame(CDiv(outSize, channels), buf));
    }
  }
}
