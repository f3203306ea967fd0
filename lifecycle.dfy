/**
 * The engine lifecycle shared by the tuner, agc and anoisecanceller filters:
 * an opaque engine handle bound to the stream format it was created for,
 * released when a frame of another format arrives, re-created lazily, and the
 * record of every call made across the engine boundary.
 */
module Lifecycle {
  import opened Wrappers
  import opened CTypes

  /** An engine instance pointer (`void *l_handler`); NULL is `None`. */
  datatype Handle = Handle(id: nat)

  /** What the filters compare to decide whether the engine still fits. */
  datatype Format = Format(channels: int, sampleRate: int)

  /** An incoming AVFrame, reduced to the fields the filters read. */
  datatype Frame = Frame(channels: int, sampleRate: int, nbSamples: int) {
    function Fmt(): Format { Format(channels, sampleRate) }
  }

  /** The frame a filter hands downstream: its nb_samples and its interleaved int16 samples. */
  datatype OutFrame = OutFrame(nbSamples: int, data: array<int16>)

  /**
   * The framework's answers during one filter_frame: whether
   * ff_get_audio_buffer returned a frame, what av_frame_copy_props returned,
   * whether the tuner's av_malloc returned memory, and what ff_filter_frame
   * (the next filter) returned.
   */
  datatype Host = Host(outBuffer: bool, copyProps: int, dataBuffer: bool, downstream: int)

  /**
   * One call across the engine boundary: create (with the engine-family
   * arguments `A` and the pointer it returned), terminate (of a pointer that
   * may be NULL), or an operation `U` on a live handle.
   */
  datatype Call<A, U> =
    | Create(args: A, result: Option<Handle>)
    | Terminate(target: Option<Handle>)
    | Use(h: Handle, op: U)

  /**
   * Ownership of engine instances after a sequence of calls: the handle the
   * caller owns (or none), or `Misuse` once a call leaked a live handle,
   * terminated one it did not own, or used one that is not live.
   */
  datatype Owner = Owns(live: Option<Handle>) | Misuse

  function Apply<A, U>(o: Owner, c: Call<A, U>): Owner {
    match c
    case Create(_, r) => if o == Owns(None) then Owns(r) else Misuse
    case Terminate(t) => if o == Owns(t) then Owns(None) else Misuse
    case Use(h, _) => if o == Owns(Some(h)) then o else Misuse
  }

  /** Ownership after `log`, starting from `o`. */
  function ReplayFrom<A, U>(o: Owner, log: seq<Call<A, U>>): Owner
    decreases |log|
  {
    if log == [] then o else Apply(ReplayFrom(o, log[..|log| - 1]), log[|log| - 1])
  }

  /** Ownership after `log`, starting from a context with no engine. */
  function Replay<A, U>(log: seq<Call<A, U>>): Owner {
    ReplayFrom(Owns(None), log)
  }

  lemma ReplaySnoc<A, U>(o: Owner, log: seq<Call<A, U>>, c: Call<A, U>)
    ensures ReplayFrom(o, log + [c]) == Apply(ReplayFrom(o, log), c)
  {
    assert (log + [c])[..|log|] == log;
  }

  /** Replaying a log in two parts is replaying it whole. */
  lemma {:induction false} ReplayAppend<A, U>(o: Owner, a: seq<Call<A, U>>, b: seq<Call<A, U>>)
    ensures ReplayFrom(o, a + b) == ReplayFrom(ReplayFrom(o, a), b)
    decreases |b|
  {
    if b == [] {
      assert a + b == a;
    } else {
      var b' := b[..|b| - 1];
      var c := b[|b| - 1];
      assert b == b' + [c];
      assert a + b == (a + b') + [c];
      ReplaySnoc(o, a + b', c);
      ReplayAppend(o, a, b');
      ReplaySnoc(ReplayFrom(o, a), b', c);
    }
  }

  /**
   * The engine library as one filter instance sees it: the ghost record of
   * the calls made to it. The engine's own answers are parameters.
   */
  class Engine<A, U> {
    ghost var calls: seq<Call<A, U>>

    constructor ()
      ensures calls == []
    {
      calls := [];
    }

    /** The create call (init_AW_API, init_AGC_API, init_NS_API); `reply` is what it returned. */
    method CallCreate(args: A, reply: Option<Handle>) returns (h: Option<Handle>)
      requires Replay(calls) == Owns(None)
      modifies this
      ensures h == reply
      ensures calls == old(calls) + [Create(args, reply)]
      ensures Replay(calls) == Owns(reply)
    {
      ReplaySnoc(Owns(None), calls, Create(args, reply));
      calls := calls + [Create(args, reply)];
      h := reply;
    }

    /** The terminate call (terminate_AW_API and its siblings), on the pointer the filter holds. */
    method CallTerminate(target: Option<Handle>)
      requires Replay(calls) == Owns(target)
      modifies this
      ensures calls == old(calls) + [Terminate(target)]
      ensures Replay(calls) == Owns(None)
    {
      ReplaySnoc(Owns(None), calls, Terminate(target));
      calls := calls + [Terminate(target)];
    }

    /** Any other engine call, which needs the handle to be live. */
    method CallUse(h: Handle, op: U)
      requires Replay(calls) == Owns(Some(h))
      modifies this
      ensures calls == old(calls) + [Use(h, op)]
      ensures Replay(calls) == Owns(Some(h))
    {
      ReplaySnoc(Owns(None), calls, Use(h, op));
      calls := calls + [Use(h, op)];
    }
  }

  /** The part of a filter context that says which engine it holds and for which format. */
  datatype Binding = Binding(handle: Option<Handle>, fmt: Format)

  /** The handle is bound but was created for another format. */
  predicate Stale(b: Binding, f: Format) {
    b.handle.Some? && (b.fmt.channels != f.channels || b.fmt.sampleRate != f.sampleRate)
  }

  /** After the stale check the handle is NULL, so the filter must create one. */
  predicate NeedsCreate(b: Binding, f: Format) {
    b.handle.None? || Stale(b, f)
  }

  datatype BindResult<A, U> = BindResult(after: Binding, calls: seq<Call<A, U>>)

  /**
   * The bind phase at the head of every filter_frame: terminate a stale
   * handle and NULL it, then, if no handle is held, store the frame's format
   * and create an engine with `args`; `created` is what the create call returned.
   */
  function Bind<A, U>(b: Binding, f: Format, args: A, created: Option<Handle>): (r: BindResult<A, U>)
    ensures r.after.fmt == f
    ensures r.after.handle == if NeedsCreate(b, f) then created else b.handle
    ensures ReplayFrom(Owns(b.handle), r.calls) == Owns(r.after.handle)
    ensures CreateCount(r.calls) == if NeedsCreate(b, f) then 1 else 0
    ensures TerminateCount(r.calls) == if Stale(b, f) then 1 else 0
    ensures Stale(b, f) ==> r.calls[0] == Terminate(b.handle)
  {
    var released := if Stale(b, f) then Binding(None, b.fmt) else b;
    var ends: seq<Call<A, U>> := if Stale(b, f) then [Terminate(b.handle)] else [];
    if released.handle.None? then
      var creates: seq<Call<A, U>> := [Create(args, created)];
      assert ends + creates == if Stale(b, f) then [Terminate(b.handle), Create(args, created)] else [Create(args, created)];
      assert CreateCount(ends) == 0;
      CountsAppend(ends, creates);
      ReplaySnoc(Owns(b.handle), ends, Create(args, created));
      assert Stale(b, f) ==> ReplayFrom(Owns(b.handle), ends) == Owns(None) by {
        if Stale(b, f) { ReplaySnoc<A, U>(Owns(b.handle), [], Terminate(b.handle)); }
      }
      BindResult(Binding(created, f), ends + creates)
    else
      BindResult(released, ends)
  }

  /** Number of create calls in a log. */
  function CreateCount<A, U>(log: seq<Call<A, U>>): nat {
    if log == [] then 0 else CreateCount(log[..|log| - 1]) + (if log[|log| - 1].Create? then 1 else 0)
  }

  /** Number of terminate calls in a log. */
  function TerminateCount<A, U>(log: seq<Call<A, U>>): nat {
    if log == [] then 0 else TerminateCount(log[..|log| - 1]) + (if log[|log| - 1].Terminate? then 1 else 0)
  }

  lemma {:induction false} CountsAppend<A, U>(a: seq<Call<A, U>>, b: seq<Call<A, U>>)
    ensures CreateCount(a + b) == CreateCount(a) + CreateCount(b)
    ensures TerminateCount(a + b) == TerminateCount(a) + TerminateCount(b)
    decreases |b|
  {
    if b == [] {
      assert a + b == a;
    } else {
      var b' := b[..|b| - 1];
      assert (a + b)[..|a + b| - 1] == a + b';
      assert (a + b)[|a + b| - 1] == b[|b| - 1];
      CountsAppend(a, b');
    }
  }

  /** A same-format frame on a bound handle makes no engine call and changes nothing. */
  lemma BindKeepsMatchingEngine<A, U>(b: Binding, f: Format, args: A, created: Option<Handle>)
    requires b.handle.Some? && b.fmt == f
    ensures Bind<A, U>(b, f, args, created) == BindResult(b, [])
  {
  }

  /** With no engine bound, the bind phase makes exactly one call: the create. */
  lemma BindCreatesWhenUnbound<A, U>(b: Binding, f: Format, args: A, created: Option<Handle>)
    requires b.handle.None?
    ensures Bind<A, U>(b, f, args, created) == BindResult(Binding(created, f), [Create(args, created)])
  {
  }

  /** A format change on a bound handle: terminate it, then exactly one create. */
  lemma BindReplacesStaleEngine<A, U>(b: Binding, f: Format, args: A, created: Option<Handle>)
    requires b.handle.Some? && b.fmt != f
    ensures Bind<A, U>(b, f, args, created)
         == BindResult(Binding(created, f), [Terminate(b.handle), Create(args, created)])
  {
  }

  /** A failed create leaves the filter unbound, with the new format stored: the next frame creates again. */
  lemma BindFailureRetries<A, U>(b: Binding, f: Format, args: A, next: Format)
    requires NeedsCreate(b, f)
    ensures Bind<A, U>(b, f, args, None).after == Binding(None, f)
    ensures NeedsCreate(Bind<A, U>(b, f, args, None).after, next)
  {
  }

  /** One frame as the bind phase sees it: its format, the create arguments built for it, the create's answer. */
  datatype Arrival<A> = Arrival(fmt: Format, args: A, created: Option<Handle>)

  /** The bind phases of a sequence of frames, with the calls they make in order. */
  function BindAll<A, U>(b: Binding, frames: seq<Arrival<A>>): BindResult<A, U>
    decreases |frames|
  {
    if frames == [] then BindResult(b, [])
    else
      var prior := BindAll<A, U>(b, frames[..|frames| - 1]);
      var last := frames[|frames| - 1];
      var step := Bind<A, U>(prior.after, last.fmt, last.args, last.created);
      BindResult(step.after, prior.calls + step.calls)
  }

  /** Across any sequence of frames the bind phases never leak, double-release or misuse an engine. */
  lemma {:induction false} BindAllKeepsOwnership<A, U>(b: Binding, frames: seq<Arrival<A>>)
    ensures ReplayFrom(Owns(b.handle), BindAll<A, U>(b, frames).calls) == Owns(BindAll<A, U>(b, frames).after.handle)
    decreases |frames|
  {
    if frames != [] {
      var prior := BindAll<A, U>(b, frames[..|frames| - 1]);
      var last := frames[|frames| - 1];
      var step := Bind<A, U>(prior.after, last.fmt, last.args, last.created);
      BindAllKeepsOwnership<A, U>(b, frames[..|frames| - 1]);
      ReplayAppend(Owns(b.handle), prior.calls, step.calls);
    }
  }

  /**
   * A run of frames of one format whose creates succeed makes exactly one
   * create (none if the engine already fits) and at most the one terminate
   * of an engine created for another format.
   */
  lemma {:induction false} SteadyFormatCreatesOnce<A, U>(b: Binding, f: Format, frames: seq<Arrival<A>>)
    requires |frames| > 0
    requires forall i :: 0 <= i < |frames| ==> frames[i].fmt == f && frames[i].created.Some?
    ensures BindAll<A, U>(b, frames).after.handle.Some? && BindAll<A, U>(b, frames).after.fmt == f
    ensures CreateCount(BindAll<A, U>(b, frames).calls) == if NeedsCreate(b, f) then 1 else 0
    ensures TerminateCount(BindAll<A, U>(b, frames).calls) == if Stale(b, f) then 1 else 0
    decreases |frames|
  {
    var init := frames[..|frames| - 1];
    var prior := BindAll<A, U>(b, init);
    var last := frames[|frames| - 1];
    var step := Bind<A, U>(prior.after, last.fmt, last.args, last.created);
    CountsAppend(prior.calls, step.calls);
    if init != [] {
      SteadyFormatCreatesOnce<A, U>(b, f, init);
      assert !NeedsCreate(prior.after, f);
    }
  }

  /** A run of frames of one format whose creates all fail retries the create on every frame. */
  lemma {:induction false} FailingCreateRetriesEveryFrame<A, U>(b: Binding, f: Format, frames: seq<Arrival<A>>)
    requires NeedsCreate(b, f)
    requires forall i :: 0 <= i < |frames| ==> frames[i].fmt == f && frames[i].created.None?
    ensures CreateCount(BindAll<A, U>(b, frames).calls) == |frames|
    ensures |frames| > 0 ==> BindAll<A, U>(b, frames).after == Binding(None, f)
    decreases |frames|
  {
    if frames != [] {
      var init := frames[..|frames| - 1];
      var prior := BindAll<A, U>(b, init);
      var last := frames[|frames| - 1];
      var step := Bind<A, U>(prior.after, last.fmt, last.args, last.created);
      CountsAppend(prior.calls, step.calls);
      FailingCreateRetriesEveryFrame<A, U>(b, f, init);
    }
  }
}
