# Engine adapters of the tuner, agc and anoisecanceller audio filters

This project models the adapter logic of three FFmpeg audio filters. Each filter sits in front of an opaque effect engine:

- `tuner`: an equalizer and reverb engine, reached over message queues;
- `agc`: automatic gain control;
- `anoisecanceller`: noise suppression.

The engines are foreign code. Every call a filter makes to one is recorded in a ghost call log (`Lifecycle.Engine`). The engine's answers are parameters of the filter methods:
- the pointer a create call returns, possibly NULL;
- the samples a run call produces.

The framework's answers are parameters too (`Lifecycle.Host`):
- whether an output frame could be allocated;
- what copying the frame properties returned;
- whether the tuner's sample buffer could be allocated;
- what the next filter returned.

What is modelled:

- **Engine lifecycle** (`lifecycle.dfy`). Each filter context holds the engine pointer and the channel count and sample rate it was created for.
  - `Replay` folds a call log into ownership: the one pointer the filter owns, or `Misuse` once a call leaks a live engine, terminates one it does not own, or uses a dead one.
  - Every filter method keeps the class invariant `Valid()`: replaying the log gives exactly the stored pointer.
  - The bind phase at the head of every `filter_frame` is the pure function `Bind`; each filter's `Rebind` method is proved to change its state exactly as `Bind` says.
  - Lemmas about `BindAll` cover whole runs of frames.
- **Session ids** (`session_ids.dfy`). These are the tuner's two `static int seq` counters: one in `init`, one in `filter_frame`.
  - `atomic_fetch_add(&seq, 3)` is modelled with 32-bit two's-complement wrap-around.
  - A base id of 0 or `0xFFFFFFFF` is redrawn exactly once.
  - The engine gets the base and the next two values as its three queue ids.
- **The engine profile** (`tuner.dfy`, `Profile`): the `AudioProfile` record built from the options, the format and the base id.
- **Sample conversion** (`sample_bridge.dfy`). `Int2ShortCpy` is an in-place loop over arrays. Its per-sample conversion `(int16_t)(x / 2147483647.99 * 32767)` is modelled as the exact fraction `x * 3276700 / 214748364799`, truncated toward zero.
- **The runtime equalizer command** (`eq_command.dfy`, `Tuner.TunerFilter.ProcessCommand`).
  - The `%d:%d:...:%d` scan is modelled: white space, an optional sign, at least one digit, then a literal `:` between conversions.
  - The command issues one `setEqOption` per band whose gain is not 0xFF, in band order.
- **The three filters as classes** (`tuner.dfy`, `agc.dfy`, `noise_canceller.dfy`), with init, uninit and filter_frame:
  - fields `channels`, `sampleRate` and `handle`, updated in place;
  - output frames as fresh `int16` arrays.

Facts about the code that the model makes explicit:

- The largest 32-bit engine value converts to 32766 and the smallest to -32767 (`SampleBridge.ScaleExtremes`).
- init and filter_frame declare two counters, each starting at 1 (see Findings).
- The redraw guard checks only the base id. After the counter wraps, a base of -3 is handed out, and its third queue id is -1, i.e. `0xFFFFFFFF` (`SessionIds.WrappedCounterReachesReservedQueueId`).

## Model

| member | source | states |
|---|---|---|
| CTypes.CDiv | libavfilter/af_agc.c:121 | C integer division: the quotient truncates toward zero, for either sign of the dividend |
| Lifecycle.Engine.CallCreate | libavfilter/soxWrapper.h:45 | a create is made only when no engine is owned; it is logged with its arguments and its result, and afterwards the filter owns exactly the pointer returned (none for NULL) |
| Lifecycle.Engine.CallTerminate | libavfilter/soxWrapper.h:53 | terminate is passed exactly the owned pointer (NULL when none is owned) and leaves nothing owned |
| Lifecycle.Engine.CallUse | libavfilter/soxWrapper.h:52-55 | run, setEqOption and switch_channel are made only on the live engine and do not change ownership |
| Lifecycle.Bind | libavfilter/af_agc.c:83-110 | after the bind phase the stored format is the frame's. The handle is the create's answer if none was bound or the bound one was made for another format; otherwise it is unchanged. A stale handle is terminated first and exactly once. One create happens exactly when one is needed, and none otherwise. The calls keep ownership exact |
| Lifecycle.BindKeepsMatchingEngine | libavfilter/af_anoisecanceller.c:76-84 | a frame of the bound format on a bound engine makes no engine call and changes nothing |
| Lifecycle.BindCreatesWhenUnbound | libavfilter/af_anoisecanceller.c:84-101 | with no engine bound, the bind phase makes exactly one call, the create; it stores the frame's format and the pointer returned |
| Lifecycle.BindReplacesStaleEngine | libavfilter/af_agc.c:83-104 | a format change on a bound engine makes exactly two calls: terminate of the old pointer, then create. The new format and the new pointer are stored |
| Lifecycle.BindFailureRetries | libavfilter/af_agc.c:101-108 | a NULL create leaves the filter unbound with the frame's format stored, so the next frame, of any format, creates again |
| Lifecycle.BindAllKeepsOwnership | libavfilter/af_anoisecanceller.c:76-101 | over any sequence of frames the bind phases never leak, double-terminate or misuse an engine |
| Lifecycle.SteadyFormatCreatesOnce | libavfilter/af_agc.c:83-91 | a run of frames of one format whose creates succeed makes exactly one create (none if the engine already fits) and only the one terminate of a stale engine |
| Lifecycle.FailingCreateRetriesEveryFrame | libavfilter/af_tuner.c:282-286 | while creates return NULL, every frame of the run attempts a create and the filter stays unbound |
| SessionIds.ReservedValues | libavfilter/af_tuner.c:136 | comparing an int with 0 and with the unsigned 0xFFFFFFFF holds exactly for 0 and -1 |
| SessionIds.SeqCounter.FetchAdd | libavfilter/af_tuner.c:135 | returns the previous counter value and adds the increment with 32-bit wrap-around |
| SessionIds.MsgId | libavfilter/af_tuner.c:135-138 | the base id handed out is never 0 or -1; it is the counter value, or the next one when the counter value is reserved |
| SessionIds.DrawMsgId | libavfilter/af_tuner.c:245-248 | one allocation yields MsgId of the old counter, and advances the counter by 3, or by 6 when the first draw was reserved (no second check), wrapping at 32 bits |
| SessionIds.DrawsDisjoint | libavfilter/af_tuner.c:135-138 | until the counter wraps, successive bases from one counter are at least 3 apart, so their id triples never overlap |
| SessionIds.StraightDraws | libavfilter/af_tuner.c:135-138 | on a stretch that neither wraps nor meets 0 or -1, the i-th base is the start plus 3i and no redraw happens |
| SessionIds.InitialDrawsAvoidReserved | libavfilter/af_tuner.c:98 | from the initial value 1 and before the counter wraps, no id of any triple is 0 or -1 |
| SessionIds.SharedCounterSeparatesSessions | libavfilter/af_tuner.c:245-260 | two successive allocations from one counter give disjoint id triples, unless the counter wraps in between |
| SessionIds.WrappedCounterReachesReservedQueueId | libavfilter/af_tuner.c:245-260 | from 1, the counter wraps past INT_MAX, and 1431655764 allocations later hands out base -3, which passes the guard though its third id is 0xFFFFFFFF |
| SampleBridge.Scale | libavfilter/af_tuner.c:197-198 | the scaled value truncated toward zero: the result has the sign of the input, and its magnitude is the largest whose multiple of 214748364799 does not exceed that of x*3276700 |
| SampleBridge.Conv | libavfilter/af_tuner.c:197-198 | one converted sample lies in [-32767, 32766] and keeps the sign of the engine value (0 for values too small to reach one step) |
| SampleBridge.ScaleRange | libavfilter/af_tuner.c:197-198 | every 32-bit engine value converts into [-32767, 32766], so the int16_t cast never wraps |
| SampleBridge.ScaleExtremes | libavfilter/af_tuner.c:197-198 | INT_MAX converts to 32766, INT_MIN to -32767, and 0 to 0 |
| SampleBridge.ScaleOdd | libavfilter/af_tuner.c:197-198 | truncation toward zero makes the conversion symmetric: -x converts to minus what x converts to |
| SampleBridge.ScaleMonotonic | libavfilter/af_tuner.c:197-198 | a larger engine value never converts to a smaller sample |
| SampleBridge.Int2ShortCpy | libavfilter/af_tuner.c:189-200 | with len 0 or a NULL pointer nothing changes; otherwise exactly dst[0..len) is written, each dst[i] with the conversion of src[i], and the rest of dst is untouched |
| SampleBridge.Memcpy | libavfilter/af_agc.c:130 | the first n elements of the destination become those of the source and the rest are untouched |
| EqCommand.ScanInt | libavfilter/af_tuner.c:341 | one `%d` conversion skips white space, takes an optional sign and at least one digit; a conversion always consumes input |
| EqCommand.ScanFrom | libavfilter/af_tuner.c:341-344 | the conversions k..9, each after the first preceded by a literal `:`, stop at the first mismatch, so at most 10-k values are assigned |
| EqCommand.Updates | libavfilter/af_tuner.c:346-353 | the loop over bands 0..n-1 requests at most one setEqOption per band, so at most n requests |
| EqCommand.ScanGains | libavfilter/af_tuner.c:341-344 | the format has ten conversions, so at most ten values are assigned |
| EqCommand.ScanIntText | libavfilter/af_tuner.c:341 | one `%d` conversion reads back exactly the int that `%d` printed, and stops where the number ends |
| EqCommand.ScanFormatRoundTrip | libavfilter/af_tuner.c:341-344 | the remaining conversions read back the colon-separated gains they are given, whatever non-digit text follows |
| EqCommand.ScanGainsRoundTrip | libavfilter/af_tuner.c:341-344 | a payload formatted as ten colon-separated ints scans back to exactly those ten ints |
| EqCommand.UpdatesExact | libavfilter/af_tuner.c:346-353 | band i is retuned, with gain g[i], if and only if i is among the bands looped over and g[i] is not 0xFF |
| EqCommand.UpdatesOrdered | libavfilter/af_tuner.c:346 | the setEqOption requests go out in strictly increasing band order, so each band is retuned at most once |
| EqCommand.AllKeepNoUpdates | libavfilter/af_tuner.c:347 | ten 0xFF values make no engine call |
| Tuner.Profile | libavfilter/af_tuner.c:253-280 | the profile has 16-bit little-endian samples, an engine frame of 1200 samples per channel in a buffer 100 larger, the format's channels and rate, queue ids m, m+1 and m+2, and the equalizer and reverb options unchanged |
| Tuner.SuccessiveSessionsDisjoint | libavfilter/af_tuner.c:245-260 | profiles whose ids come from successive draws of one counter use disjoint message queues, whatever their formats and options |
| Tuner.SplitCountersCollide | libavfilter/af_tuner.c:96-288 | with init's and filter_frame's counters as two objects, each starting at 1: tuner A's init creates its engine with base id 1 and keeps it, tuner B's init creates with base id 4, and B's first frame of another format terminates that engine and creates a new one with base id 1. Both live engines use message queues 1, 2 and 3 |
| Tuner.SharedCounterSeparatesTuners | libavfilter/af_tuner.c:96-288 | with one counter object serving both init and filter_frame, the same two tuners and calls give A's kept engine base id 1, B's init engine base id 4 and B's re-created engine base id 7, so the two live engines use disjoint message queues |
| Tuner.CommandRetunesExactly | libavfilter/af_tuner.c:341-353 | a command formatted from ten gains scans completely and calls setEqOption(band, gain) exactly for the bands whose gain is not 0xFF, with that gain |
| Tuner.TunerFilter.constructor | libavfilter/af_tuner.c:38-63 | the context starts with its options applied and no engine; the two counters are shared objects passed in |
| Tuner.TunerFilter.Init | libavfilter/af_tuner.c:96-178 | a live engine is terminated first. Then one id is drawn from init's counter, and one create is made with the profile for the configured channels and sample rate. The result is -1 on NULL and 0 otherwise; ownership stays exact |
| Tuner.TunerFilter.Uninit | libavfilter/af_tuner.c:180-187 | terminate is called on the current pointer, NULL included, and the handle is NULL afterwards; a second uninit therefore terminates NULL |
| Tuner.TunerFilter.Rebind | libavfilter/af_tuner.c:213-288 | the new binding and the calls made are those of Bind, with the profile for the frame's format and filter_frame's next id; that counter advances only when a create is needed |
| Tuner.TunerFilter.FilterFrame | libavfilter/af_tuner.c:202-324 | the bind phase as in Rebind. A NULL create returns -1 and a failed output frame returns ENOMEM, both with no engine run. A failed property copy returns its error, and a failed sample buffer returns ENOMEM. Otherwise exactly three calls follow: switch on the input, run on nb_samples*channels samples, switch on the converted output. The output frame has nb_samples samples holding what the after-tune switch leaves of the converted engine output (the converted output itself for flag 0), and the next filter's result is returned |
| Tuner.TunerFilter.Run | libavfilter/af_tuner.c:306-313 | the frame path's engine steps happen in order; the after-tune switch_channel is handed the converted engine output, and the output buffer ends up holding what that switch leaves in it, which is the converted output itself for flag 0 |
| Tuner.TunerFilter.Pipeline | libavfilter/af_tuner.c:308-313 | a processed frame makes three calls on the live engine, with the run in the middle |
| Tuner.TunerFilter.RetuneBands | libavfilter/af_tuner.c:346-353 | the band loop makes exactly the setEqOption calls of the bands whose gain is not 0xFF, in band order, on the live engine |
| Tuner.TunerFilter.ProcessCommand | libavfilter/af_tuner.c:326-356 | with no engine it returns -1 and makes no call. If fewer than ten gains scan, it returns EINVAL with no call. Otherwise it makes one setEqOption per band whose gain is not 0xFF, in band order, and returns 0 whatever those calls return |
| Agc.AgcFilter.constructor | libavfilter/af_agc.c:38-52 | the context starts zeroed, with the targetDBFS option and no engine |
| Agc.AgcFilter.Init | libavfilter/af_agc.c:56-63 | the handle becomes NULL and 0 is returned, with no engine call; ownership is exact only if no engine was live |
| Agc.AgcFilter.Uninit | libavfilter/af_agc.c:65-72 | terminate is called on the current pointer, NULL included, and the handle is NULL afterwards |
| Agc.AgcFilter.Rebind | libavfilter/af_agc.c:83-110 | the new binding and the calls made are those of Bind, with create arguments (sample_rate, channels, targetDBFS) |
| Agc.AgcFilter.FilterFrame | libavfilter/af_agc.c:74-139 | the bind phase as in Rebind, and -1 on a NULL create. Otherwise one run is made on nb_samples*channels samples, before any allocation. A failed output frame returns ENOMEM and a failed property copy returns its error. Otherwise the output frame has out_size/channels samples (truncating) and holds the out_size samples the engine returned |
| NoiseCanceller.ParamsFor | libavfilter/af_anoisecanceller.c:96 | the create arguments are (channels, sample_rate), in that order, with level kVeryHigh |
| NoiseCanceller.NoiseCancellerFilter.constructor | libavfilter/af_anoisecanceller.c:38-43 | the context starts zeroed with no engine |
| NoiseCanceller.NoiseCancellerFilter.Init | libavfilter/af_anoisecanceller.c:49-56 | the handle becomes NULL and 0 is returned, with no engine call; ownership is exact only if no engine was live |
| NoiseCanceller.NoiseCancellerFilter.Uninit | libavfilter/af_anoisecanceller.c:58-65 | terminate is called on the current pointer, NULL included, and the handle is NULL afterwards |
| NoiseCanceller.NoiseCancellerFilter.Rebind | libavfilter/af_anoisecanceller.c:76-101 | the new binding and the calls made are those of Bind, with create arguments (channels, sample_rate, kVeryHigh) |
| NoiseCanceller.NoiseCancellerFilter.FilterFrame | libavfilter/af_anoisecanceller.c:67-132 | the bind phase as in Rebind, and -1 on a NULL create. Otherwise one run is made on nb_samples*channels samples. A failed output frame returns ENOMEM and a failed property copy returns its error. Otherwise the output frame has out_size/channels samples and holds the out_size samples the engine returned, independent of the input's nb_samples |

## Left out

- The engines' own behaviour is foreign code whose source is not available. This covers init_AW_API, runAW_API, terminate_AW_API, setEqOption, switch_channel and their AGC and NS counterparts. Their answers are parameters, and only the calls made are recorded.
- Tuner.TunerFilter.Run and Tuner.TunerFilter.FilterFrame: the after-tune switch_channel rewrites the output frame in place inside the engine. What it leaves there is a parameter of the same length as the converted output, equal to it for flag 0; the channel swap or fill of flags 1-3 is not modelled.
- Tuner.TunerFilter.FilterFrame: the input frame's samples are not modelled, so neither is the before-tune switch_channel's rewrite of them; only the call is recorded, and the engine's output is a parameter.
- Tuner.TunerFilter.FilterFrame: runAW_API is assumed to fill all frame_len ints of its output buffer (`|produced|` equals nb_samples*channels).
- SampleBridge.Conv: the conversion is exact rational scaling truncated toward zero. The two rounding steps of the double arithmetic (the division, then the multiplication) are not modelled.
- SessionIds.SeqCounter.FetchAdd: atomicity is not modelled; the counter is updated sequentially.
- Signed-overflow undefined behaviour is not modelled. Int arithmetic in the source is unbounded here, except for the counter, which wraps. This covers 1200*channels and +100 in the profile, msg_id+1 and msg_id+2, and nb_samples*channels.
- EqCommand.ScanInt: a `%d` value outside the int range is undefined in C. The model converts it exactly.
- Agc.AgcFilter.FilterFrame: requires channels > 0, since the source divides out_size by channels.
- Agc.AgcFilter.FilterFrame: the output frame is modelled as holding exactly out_size samples. The framework's frame holds (out_size/channels)*channels samples plus its own padding, so a copy of an out_size that is not a multiple of channels is not checked against that buffer.
- NoiseCanceller.NoiseCancellerFilter.FilterFrame: the same two points as for the agc filter apply.
- Agc.AgcFilter.Init and NoiseCanceller.NoiseCancellerFilter.Init state only that ownership stays exact when no engine was live. They do not claim it otherwise, because they drop a live pointer without terminating it.
- Frame and buffer freeing (av_frame_free, av_free) is not modelled. That includes the input frame that the -1 return of the bind phase does not free.
- av_log messages are not modelled.
- The option tables, pad and filter registration are not modelled. The options appear only as constructor arguments that never change afterwards.
- The command name and the res, res_len and flags arguments of process_command are not modelled; the source ignores them.
- The counters are shared across all tuner instances of a process. The model passes them in as objects, so one object can serve both call sites, which is the corrected configuration.

## Findings

| source | as written | input that shows it | evidently intended | confidence | as-written member | corrected member |
|---|---|---|---|---|---|---|
| libavfilter/af_tuner.c:98 | init and filter_frame each declare their own `static int seq = 1`, so both hand out base ids 1, 4, 7, ... | Take two tuner instances in one process. A's configured format matches its input, so A keeps the session init gave it (ids 1, 2, 3). B's configured format does not match, so on B's first frame filter_frame re-creates B's engine with base id 1 while A's session is still live | one counter across the two call sites, so that no two live sessions share a message queue | medium, not executed | Tuner.SplitCountersCollide | Tuner.SharedCounterSeparatesTuners |
