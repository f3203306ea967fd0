/**
 * The tuner filter (af_tuner.c): an equalizer/reverb engine driven through
 * message queues. The engine is created from an AudioProfile at init and
 * again whenever the input format changes, and its equalizer can be
 * retuned at run time with a command.
 */
module Tuner {
  import opened Wrappers
  import opened CTypes
  import opened Lifecycle
  import opened SessionIds
  import opened SampleBridge
  import opened EqCommand

  /**
   * The tuner's options other than channels and sample_rate (`bands` holds
   * eq_band0 .. eq_band9); the filter never changes them.
   */
  datatype TunerOptions = TunerOptions(
    revbPercent: int, revbHfdamping: int, revbRoomscale: int, revbDepth: int, revbPredelay: int,
    totalGain: int, eqPattern: int, reverbPattern: int,
    bands: seq<int>,
    switchBefore: int, switchAfter: int)

  /** struct audioProfile_t, field for field. */
  datatype AudioProfile = AudioProfile(
    sampleRate: int, chanNum: int, bitsDepth: int, frameLen: int, bigEndian: int, wavlen: int,
    msgSndId: int, msgRcvId: int, optRcvId: int,
    eqPattern: int, reverbPattern: int, eqProfile: seq<int>, totalGain: int,
    revbPercent: int, revbHfdamping: int, revbRoomscale: int, revbDepth: int, revbPredelay: int)

  /**
   * The profile passed to init_AW_API for format `f` and base message id `m`:
   * 16-bit little-endian samples, an engine frame of 1200 samples per channel
   * in a buffer 100 larger, three consecutive queue ids from `m`, and the
   * equalizer and reverb settings as configured.
   */
  function Profile(o: TunerOptions, f: Format, m: int): (p: AudioProfile)
    ensures p.chanNum == f.channels && p.sampleRate == f.sampleRate
    ensures p.bitsDepth == 16 && p.bigEndian == 0
    ensures p.frameLen == 1200 * p.chanNum && p.wavlen == p.frameLen + 100
    ensures p.msgSndId == m && p.msgRcvId == m + 1 && p.optRcvId == m + 2
    ensures p.eqProfile == o.bands && p.eqPattern == o.eqPattern && p.totalGain == o.totalGain
    ensures p.reverbPattern == o.reverbPattern && p.revbPercent == o.revbPercent
    ensures p.revbHfdamping == o.revbHfdamping && p.revbRoomscale == o.revbRoomscale
    ensures p.revbDepth == o.revbDepth && p.revbPredelay == o.revbPredelay
  {
    AudioProfile(
      f.sampleRate, f.channels, 16, 1200 * f.channels, 0, 1200 * f.channels + 100,
      m, m + 1, m + 2,
      o.eqPattern, o.reverbPattern, o.bands, o.totalGain,
      o.revbPercent, o.revbHfdamping, o.revbRoomscale, o.revbDepth, o.revbPredelay)
  }

  /** The three message-queue ids a profile hands to the engine. */
  function QueueIds(p: AudioProfile): set<int> {
    {p.msgSndId, p.msgRcvId, p.optRcvId}
  }

  /**
   * Two sessions whose ids come from successive draws of one counter use
   * disjoint queues, whatever formats and options they are created with.
   */
  lemma SuccessiveSessionsDisjoint(o: TunerOptions, o': TunerOptions, f: Format, g: Format, v: int)
    requires Int32Min <= v <= Int32Max - 4 * Step
    ensures QueueIds(Profile(o, f, MsgId(v))) !! QueueIds(Profile(o', g, MsgId(Next(v))))
  {
    SharedCounterSeparatesSessions(v);
  }

  /** Which buffer a switch_channel call rearranges, with the samples it is handed. */
  datatype Buffer = InputFrame | OutputFrame(samples: seq<int16>)

  /** The switch flag that leaves the channels as they are. */
  const NoSwitch: int := 0

  /**
   * What switch_channel may leave in a buffer of samples `before`: a buffer
   * of the same length, and the same samples for flag 0.
   */
  predicate SwitchAnswer(flag: int, before: seq<int16>, after: seq<int16>) {
    |after| == |before| && (flag == NoSwitch ==> after == before)
  }

  /** The calls on a live tuner engine. */
  datatype AwOp =
    | SwitchChannel(flag: int, buffer: Buffer, len: int)
    | RunAw(inLen: int)
    | SetEqOption(band: int, gain: int)

  /** The setEqOption calls for a run of band updates, in order. */
  function EqCalls(h: Handle, us: seq<BandGain>): (cs: seq<Call<AudioProfile, AwOp>>)
    ensures |cs| == |us|
  {
    if us == [] then [] else EqCalls(h, us[..|us| - 1]) + [Use(h, SetEqOption(us[|us| - 1].band, us[|us| - 1].gain))]
  }

  /** The i-th call of a run of band updates is the setEqOption of the i-th update. */
  lemma {:induction false} EqCallsAt(h: Handle, us: seq<BandGain>, i: nat)
    requires i < |us|
    ensures EqCalls(h, us)[i] == Use(h, SetEqOption(us[i].band, us[i].gain))
    decreases |us|
  {
    if i < |us| - 1 {
      EqCallsAt(h, us[..|us| - 1], i);
    }
  }

  /** Band n adds its one setEqOption call after those of the earlier bands, or none for 0xFF. */
  lemma EqCallsStep(h: Handle, g: seq<int>, n: nat, prefix: seq<Call<AudioProfile, AwOp>>)
    requires n < |g|
    ensures g[n] == Keep ==> prefix + EqCalls(h, Updates(g, n + 1)) == prefix + EqCalls(h, Updates(g, n))
    ensures g[n] != Keep ==>
              prefix + EqCalls(h, Updates(g, n + 1)) == prefix + EqCalls(h, Updates(g, n)) + [Use(h, SetEqOption(n, g[n]))]
  {
    var us := Updates(g, n + 1);
    if g[n] == Keep {
      assert us == Updates(g, n) + [];
      assert Updates(g, n) + [] == Updates(g, n);
    } else {
      assert us == Updates(g, n) + [BandGain(n, g[n])];
      assert us[..|us| - 1] == Updates(g, n);
      var c := Use(h, SetEqOption(n, g[n]));
      assert EqCalls(h, us) == EqCalls(h, Updates(g, n)) + [c];
      assert prefix + (EqCalls(h, Updates(g, n)) + [c]) == prefix + EqCalls(h, Updates(g, n)) + [c];
    }
  }

  /**
   * A command formatted from ten gains makes process_command call
   * setEqOption(band, gain) exactly for the bands whose gain is not 0xFF,
   * with that gain.
   */
  lemma CommandRetunesExactly(h: Handle, g: seq<int>, band: nat, gain: int)
    requires |g| == Bands
    ensures var scanned := ScanGains(FormatGains(g));
            |scanned| == Bands &&
            (Use(h, SetEqOption(band, gain)) in EqCalls(h, Updates(scanned, Bands))
             <==> band < Bands && g[band] != Keep && gain == g[band])
  {
    ScanGainsRoundTrip(g);
    UpdatesExact(g, Bands, BandGain(band, gain));
    var us := Updates(g, Bands);
    var cs := EqCalls(h, us);
    if Use(h, SetEqOption(band, gain)) in cs {
      var i :| 0 <= i < |cs| && cs[i] == Use(h, SetEqOption(band, gain));
      EqCallsAt(h, us, i);
      assert us[i] == BandGain(band, gain);
    }
    if BandGain(band, gain) in us {
      var i :| 0 <= i < |us| && us[i] == BandGain(band, gain);
      EqCallsAt(h, us, i);
      assert cs[i] == Use(h, SetEqOption(band, gain));
    }
  }

  /**
   * The counters as written: init() and filter_frame() each own a counter
   * starting at 1. Tuner `a` is configured for stereo 16 kHz and keeps the
   * session its init() creates; tuner `b` is configured for another format,
   * so its first stereo 16 kHz frame re-creates its engine from
   * filter_frame()'s counter. Both live engines are created with base id 1,
   * so they share all three message queues.
   */
  method SplitCountersCollide(o: TunerOptions, h1: Handle, h2: Handle, h3: Handle, nbSamples: int)
    returns (a: TunerFilter, b: TunerFilter)
    requires |o.bands| == Bands
    ensures a.initSeq == b.initSeq && a.frameSeq == b.frameSeq && a.initSeq != a.frameSeq
    ensures a.Valid() && a.handle == Some(h1)
    ensures a.engine.calls == [Create(Profile(o, Format(2, 16000), 1), Some(h1))]
    ensures b.Valid() && b.handle == Some(h3)
    ensures b.engine.calls == [Create(Profile(o, Format(0, 0), 4), Some(h2)), Terminate(Some(h2)),
                               Create(Profile(o, Format(2, 16000), 1), Some(h3))]
    ensures QueueIds(Profile(o, Format(2, 16000), 1)) == {1, 2, 3}
  {
    var initSeq := new SeqCounter();
    var frameSeq := new SeqCounter();
    a := new TunerFilter(2, 16000, o, initSeq, frameSeq);
    b := new TunerFilter(0, 0, o, initSeq, frameSeq);
    var ret := a.Init(Some(h1));
    ret := b.Init(Some(h2));
    b.Rebind(Frame(2, 16000, nbSamples), Some(h3));
  }

  /**
   * The corrected configuration: one counter serves both init() and
   * filter_frame(). The same two tuners and calls as in
   * SplitCountersCollide now give B's re-created engine base id 7, so the
   * two live engines use disjoint message queues.
   */
  method SharedCounterSeparatesTuners(o: TunerOptions, h1: Handle, h2: Handle, h3: Handle, nbSamples: int)
    returns (a: TunerFilter, b: TunerFilter)
    requires |o.bands| == Bands
    ensures a.initSeq == a.frameSeq == b.initSeq == b.frameSeq
    ensures a.Valid() && a.handle == Some(h1)
    ensures a.engine.calls == [Create(Profile(o, Format(2, 16000), 1), Some(h1))]
    ensures b.Valid() && b.handle == Some(h3)
    ensures b.engine.calls == [Create(Profile(o, Format(0, 0), 4), Some(h2)), Terminate(Some(h2)),
                               Create(Profile(o, Format(2, 16000), 7), Some(h3))]
    ensures QueueIds(Profile(o, Format(2, 16000), 1)) !! QueueIds(Profile(o, Format(2, 16000), 7))
  {
    var shared := new SeqCounter();
    a := new TunerFilter(2, 16000, o, shared, shared);
    b := new TunerFilter(0, 0, o, shared, shared);
    var ret := a.Init(Some(h1));
    ret := b.Init(Some(h2));
    b.Rebind(Frame(2, 16000, nbSamples), Some(h3));
  }

  /** ATunerContext. */
  class TunerFilter {
    var channels: int
    var sampleRate: int
    var handle: Option<Handle>
    const opts: TunerOptions
    const engine: Engine<AudioProfile, AwOp>
    /** The `static int seq` of init() and the one of filter_frame(). */
    const initSeq: SeqCounter
    const frameSeq: SeqCounter

    /** The filter owns exactly the engine its log says is live. */
    ghost predicate Valid()
      reads this, engine
    {
      Replay(engine.calls) == Owns(handle)
    }

    function Bound(): Binding
      reads this
    {
      Binding(handle, Format(channels, sampleRate))
    }

    /**
     * The private context with its options applied (channels and sample_rate
     * are options too) and no engine. The two counters are process-wide and
     * shared by every instance, so they are passed in.
     */
    constructor (channels: int, sampleRate: int, opts: TunerOptions, initSeq: SeqCounter, frameSeq: SeqCounter)
      requires |opts.bands| == Bands
      ensures Valid() && fresh(engine) && engine.calls == []
      ensures handle == None && this.channels == channels && this.sampleRate == sampleRate
      ensures this.opts == opts && this.initSeq == initSeq && this.frameSeq == frameSeq
    {
      this.channels, this.sampleRate := channels, sampleRate;
      this.opts := opts;
      this.initSeq, this.frameSeq := initSeq, frameSeq;
      handle := None;
      engine := new Engine();
    }

    /**
     * init: terminate a live engine first, then draw a message id from
     * init()'s counter and create the engine from the configured channels
     * and sample rate; -1 when the engine returns NULL.
     * `created` is init_AW_API's answer.
     */
    method Init(created: Option<Handle>) returns (ret: int)
      requires Valid()
      modifies this, engine, initSeq
      ensures Valid()
      ensures handle == created && ret == (if created.None? then -1 else 0)
      ensures channels == old(channels) && sampleRate == old(sampleRate)
      ensures initSeq.value as int == Next(old(initSeq.value) as int)
      ensures engine.calls == old(engine.calls)
                + (if old(handle).Some? then [Terminate(old(handle))] else [])
                + [Create(Profile(opts, Format(channels, sampleRate), MsgId(old(initSeq.value) as int)), created)]
    {
      if handle.Some? {
        engine.CallTerminate(handle);
        handle := None;
      }
      var m := DrawMsgId(initSeq);
      handle := engine.CallCreate(Profile(opts, Format(channels, sampleRate), m), created);
      ret := if handle.None? then -1 else 0;
    }

    /** uninit: terminate whatever the handle holds (possibly NULL) and NULL it. */
    method Uninit()
      requires Valid()
      modifies this, engine
      ensures Valid() && handle == None
      ensures engine.calls == old(engine.calls) + [Terminate(old(handle))]
      ensures channels == old(channels) && sampleRate == old(sampleRate)
    {
      engine.CallTerminate(handle);
      handle := None;
    }

    /**
     * The first half of filter_frame: terminate an engine created for another
     * format; with no engine, draw a message id from filter_frame()'s counter,
     * store the frame's format and create the engine from it.
     */
    method Rebind(frame: Frame, created: Option<Handle>)
      requires Valid()
      modifies this, engine, frameSeq
      ensures Valid()
      ensures var r := Bind<AudioProfile, AwOp>(old(Bound()), frame.Fmt(),
                         Profile(opts, frame.Fmt(), MsgId(old(frameSeq.value) as int)), created);
              Bound() == r.after && engine.calls == old(engine.calls) + r.calls
      ensures frameSeq.value as int ==
                if NeedsCreate(old(Bound()), frame.Fmt()) then Next(old(frameSeq.value) as int) else old(frameSeq.value) as int
    {
      ghost var b, f := Bound(), frame.Fmt();
      ghost var args := Profile(opts, frame.Fmt(), MsgId(frameSeq.value as int));
      if !NeedsCreate(b, f) {
        BindKeepsMatchingEngine<AudioProfile, AwOp>(b, f, args, created);
      } else if b.handle.None? {
        BindCreatesWhenUnbound<AudioProfile, AwOp>(b, f, args, created);
      } else {
        BindReplacesStaleEngine<AudioProfile, AwOp>(b, f, args, created);
      }
      if handle.Some? && (channels != frame.channels || sampleRate != frame.sampleRate) {
        engine.CallTerminate(handle);
        handle := None;
      }
      if handle.None? {
        var m := DrawMsgId(frameSeq);
        channels := frame.channels;
        sampleRate := frame.sampleRate;
        handle := engine.CallCreate(Profile(opts, Format(channels, sampleRate), m), created);
      }
    }

    /**
     * filter_frame: the bind phase, -1 on a NULL engine. Otherwise request an
     * output frame of nb_samples, copy the properties, allocate the engine's
     * int output buffer of frame_len = nb_samples*channels, then switch the
     * input's channels, run the engine, convert its output into the output
     * frame and switch the output's channels, and pass the frame on.
     * `created` and `produced` are the engine's answers to create and run,
     * `switched` what the switch after tuning leaves in the output frame.
     */
    method FilterFrame(frame: Frame, created: Option<Handle>, produced: seq<int32>, switched: seq<int16>, host: Host)
      returns (ret: int, out: Option<OutFrame>)
      requires Valid()
      requires frame.channels >= 0 && frame.nbSamples >= 0
      requires |produced| == frame.nbSamples * frame.channels
      requires SwitchAnswer(opts.switchAfter, ConvAll(produced), switched)
      modifies this, engine, frameSeq
      ensures Valid()
      ensures var r := Bind<AudioProfile, AwOp>(old(Bound()), frame.Fmt(),
                         Profile(opts, frame.Fmt(), MsgId(old(frameSeq.value) as int)), created);
              Bound() == r.after &&
              engine.calls == old(engine.calls) + r.calls
                + if handle.Some? && host.outBuffer && host.copyProps >= 0 && host.dataBuffer
                  then Pipeline(handle.value, |produced|, ConvAll(produced))
                  else []
      ensures frameSeq.value as int ==
                if NeedsCreate(old(Bound()), frame.Fmt()) then Next(old(frameSeq.value) as int) else old(frameSeq.value) as int
      ensures handle.None? ==> ret == -1 && out.None?
      ensures handle.Some? && !host.outBuffer ==> ret == AvError(ENOMEM) && out.None?
      ensures handle.Some? && host.outBuffer && host.copyProps < 0 ==> ret == host.copyProps && out.None?
      ensures handle.Some? && host.outBuffer && host.copyProps >= 0 && !host.dataBuffer ==>
                ret == AvError(ENOMEM) && out.None?
      ensures handle.Some? && host.outBuffer && host.copyProps >= 0 && host.dataBuffer ==>
                ret == host.downstream && out.Some? && fresh(out.value.data)
                && out.value.nbSamples == frame.nbSamples
                && out.value.data[..] == switched
      ensures out.Some? && opts.switchAfter == NoSwitch ==> out.value.data[..] == ConvAll(produced)
    {
      ghost var r := Bind<AudioProfile, AwOp>(Bound(), frame.Fmt(),
                       Profile(opts, frame.Fmt(), MsgId(frameSeq.value as int)), created);
      Rebind(frame, created);
      if handle.None? {
        return -1, None;
      }
      assert handle == r.after.handle && channels == frame.channels;
      assert Valid() && Bound() == r.after && engine.calls == old(engine.calls) + r.calls;
      if !host.outBuffer {
        return AvError(ENOMEM), None;
      }
      var buf := new int16[frame.nbSamples * channels];
      if host.copyProps < 0 {
        return host.copyProps, None;
      }
      var frameLen := frame.nbSamples * channels;
      if !host.dataBuffer {
        return AvError(ENOMEM), None;
      }
      var data := new int32[frameLen];
      Run(handle.value, frameLen, produced, switched, data, buf);
      ret, out := host.downstream, Some(OutFrame(frame.nbSamples, buf));
    }

    /**
     * switch_channel on the input, runAW_API into `data` (the engine fills
     * all frame_len ints with `produced`), Int2ShortCpy into the output
     * frame, switch_channel on the output, which rewrites the output frame
     * in place into `switched` (unchanged for flag 0).
     */
    method Run(h: Handle, frameLen: int, produced: seq<int32>, switched: seq<int16>,
               data: array<int32>, buf: array<int16>)
      requires Replay(engine.calls) == Owns(Some(h))
      requires data.Length == frameLen && buf.Length == frameLen && |produced| == frameLen
      requires SwitchAnswer(opts.switchAfter, ConvAll(produced), switched)
      modifies engine, data, buf
      ensures Replay(engine.calls) == Owns(Some(h))
      ensures engine.calls == old(engine.calls) + Pipeline(h, frameLen, ConvAll(produced))
      ensures buf[..] == switched
    {
      engine.CallUse(h, SwitchChannel(opts.switchBefore, InputFrame, frameLen));
      engine.CallUse(h, RunAw(frameLen));
      Memcpy(data, produced, frameLen);
      Int2ShortCpy(buf, data, frameLen);
      assert data[..] == produced;
      assert buf[..] == ConvAll(produced);
      engine.CallUse(h, SwitchChannel(opts.switchAfter, OutputFrame(buf[..]), frameLen));
      Memcpy(buf, switched, frameLen);
      assert buf[..] == buf[..frameLen];
    }

    /** The engine calls of one processed frame of `len` samples whose converted output is `converted`. */
    function Pipeline(h: Handle, len: int, converted: seq<int16>): (cs: seq<Call<AudioProfile, AwOp>>)
      ensures |cs| == 3 && forall i :: 0 <= i < 3 ==> cs[i].Use? && cs[i].h == h
      ensures cs[1] == Use(h, RunAw(len))
    {
      [ Use(h, SwitchChannel(opts.switchBefore, InputFrame, len)),
        Use(h, RunAw(len)),
        Use(h, SwitchChannel(opts.switchAfter, OutputFrame(converted), len)) ]
    }

    /** The loop of process_command: setEqOption for every band whose gain is not 0xFF. */
    method RetuneBands(h: Handle, g: seq<int>)
      requires |g| == Bands && Replay(engine.calls) == Owns(Some(h))
      modifies engine
      ensures Replay(engine.calls) == Owns(Some(h))
      ensures engine.calls == old(engine.calls) + EqCalls(h, Updates(g, Bands))
    {
      ghost var prefix := engine.calls;
      for i := 0 to Bands
        invariant Replay(engine.calls) == Owns(Some(h))
        invariant engine.calls == prefix + EqCalls(h, Updates(g, i))
      {
        EqCallsStep(h, g, i, prefix);
        if g[i] != Keep {
          engine.CallUse(h, SetEqOption(i, g[i]));
        }
      }
    }

    /**
     * process_command: -1 without an engine; EINVAL unless all ten gains
     * scan; otherwise one setEqOption per band whose gain is not 0xFF, in
     * band order (their results are only logged), and 0.
     */
    method ProcessCommand(args: string) returns (ret: int)
      requires Valid()
      modifies engine
      ensures Valid()
      ensures handle.None? ==> ret == -1 && engine.calls == old(engine.calls)
      ensures handle.Some? && |ScanGains(args)| != Bands ==>
                ret == AvError(EINVAL) && engine.calls == old(engine.calls)
      ensures handle.Some? && |ScanGains(args)| == Bands ==>
                ret == 0 && engine.calls == old(engine.calls) + EqCalls(handle.value, Updates(ScanGains(args), Bands))
    {
      if handle.None? {
        return -1;
      }
      var g := ScanGains(args);
      if |g| != Bands {
        return AvError(EINVAL);
      }
      RetuneBands(handle.value, g);
      ret := 0;
    }
  }
}
