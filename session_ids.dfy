/**
 * Message-id allocation of the tuner: `atomic_fetch_add(&seq, 3)` hands out
 * a base id `m`, and the engine is given `m`, `m+1` and `m+2` as its send,
 * receive and options queue ids. A base equal to 0 or 0xFFFFFFFF is drawn
 * once more, without a second check.
 */
module SessionIds {
  import opened CTypes

  /** The value every `static int seq` starts from. */
  const InitialSeq: int := 1

  /** The increment of each `atomic_fetch_add`. */
  const Step: int := 3

  /** The value C compares when an int meets the unsigned constant 0xFFFFFFFF. */
  function AsUnsigned(m: int32): int {
    if m < 0 then m as int + 0x1_0000_0000 else m as int
  }

  /** `msg_id == 0 || msg_id == 0xFFFFFFFF` on an int, which holds for 0 and -1. */
  predicate IsReserved(m: int) {
    Int32Min <= m <= Int32Max && (m == 0 || AsUnsigned(m as int32) == 0xFFFF_FFFF)
  }

  lemma ReservedValues(m: int)
    requires Int32Min <= m <= Int32Max
    ensures IsReserved(m) <==> m == 0 || m == -1
  {
  }

  /** Two's-complement wrap-around of a 32-bit int. */
  function Wrap(x: int): (w: int)
    ensures Int32Min <= w <= Int32Max
    ensures Int32Min <= x <= Int32Max ==> w == x
  {
    (x - Int32Min) % 0x1_0000_0000 + Int32Min
  }

  /** One process-wide `static int seq`. */
  class SeqCounter {
    var value: int32

    constructor ()
      ensures value as int == InitialSeq
    {
      value := InitialSeq as int32;
    }

    /** `atomic_fetch_add(&seq, n)`: returns the old value; the sum wraps around. */
    method FetchAdd(n: int) returns (prev: int32)
      modifies this
      ensures prev == old(value) && value as int == Wrap(old(value) as int + n)
    {
      prev := value;
      value := Wrap(value as int + n) as int32;
    }
  }

  /** The base id handed out when the counter holds `v`. */
  function MsgId(v: int): (m: int)
    ensures !IsReserved(m)
    ensures m == v || (IsReserved(v) && m == v + Step)
  {
    if IsReserved(v) then v + Step else v
  }

  /** How far one allocation moves the counter: one or two increments. */
  function Advance(v: int): int {
    if IsReserved(v) then 2 * Step else Step
  }

  /** The counter after one allocation from `v`, wrapped to 32 bits. */
  function Next(v: int): int {
    Wrap(v + Advance(v))
  }

  /** The allocation at af_tuner.c's two call sites; `c` is the call site's own counter. */
  method DrawMsgId(c: SeqCounter) returns (m: int)
    modifies c
    ensures m == MsgId(old(c.value) as int)
    ensures c.value as int == Next(old(c.value) as int)
  {
    var prev := c.FetchAdd(Step);
    m := prev as int;
    if m == 0 || AsUnsigned(prev) == 0xFFFF_FFFF {
      ReservedValues(m);
      prev := c.FetchAdd(Step);
      m := prev as int;
    }
  }

  /** The base ids of `k` successive allocations from one counter holding `v`. */
  function Draws(v: int, k: nat): (ids: seq<int>)
    ensures |ids| == k
    decreases k
  {
    if k == 0 then [] else [MsgId(v)] + Draws(Next(v), k - 1)
  }

  /** The counter after `k` successive allocations from `v`. */
  function After(v: int, k: nat): int
    decreases k
  {
    if k == 0 then v else After(Next(v), k - 1)
  }

  /**
   * Until the counter wraps, allocations from one counter never hand out
   * overlapping id triples: every base is at least 3 above the previous one,
   * and none reaches the counter value that follows.
   */
  lemma {:induction false} DrawsDisjoint(v: int, k: nat)
    requires Int32Min <= v && v + 2 * Step * k <= Int32Max
    decreases k
    ensures v <= After(v, k)
    ensures forall i :: 0 <= i < k ==> v <= Draws(v, k)[i] && Draws(v, k)[i] + Step <= After(v, k)
    ensures forall i, j :: 0 <= i < j < k ==> Draws(v, k)[i] + Step <= Draws(v, k)[j]
  {
    if k > 0 {
      var v' := Next(v);
      assert v' == v + Advance(v);
      DrawsDisjoint(v', k - 1);
      var ids := Draws(v, k);
      assert ids == [MsgId(v)] + Draws(v', k - 1);
      forall i | 0 < i < k ensures ids[i] == Draws(v', k - 1)[i - 1] { }
    }
  }

  /**
   * On a stretch of counter values that neither wraps nor meets 0 or -1, the
   * redraw never happens: the i-th base is v + 3i.
   */
  lemma {:induction false} StraightDraws(v: int, k: nat)
    decreases k
    requires Int32Min <= v && v + Step * k <= Int32Max
    requires v >= InitialSeq || v + Step * k <= -1
    ensures forall i :: 0 <= i < k ==> Draws(v, k)[i] == v + Step * i
    ensures After(v, k) == v + Step * k
  {
    if k > 0 {
      if v >= InitialSeq {
        PositiveNotReserved(v);
      }
      assert Next(v) == v + Step;
      StraightDraws(v + Step, k - 1);
      var ids := Draws(v, k);
      forall i | 0 < i < k ensures ids[i] == v + Step * i {
        assert ids[i] == Draws(v + Step, k - 1)[i - 1];
      }
    }
  }

  lemma PositiveNotReserved(x: int)
    requires x >= InitialSeq
    ensures !IsReserved(x)
  {
    if x <= Int32Max {
      assert AsUnsigned(x as int32) == x;
    }
  }

  /** Base ids 1, 4, 7, ... give queue ids that are all positive, never a reserved value. */
  lemma InitialDrawsAvoidReserved(k: nat, i: nat)
    requires i < k && InitialSeq + Step * k <= Int32Max
    ensures Draws(InitialSeq, k)[i] >= InitialSeq
    ensures var m := Draws(InitialSeq, k)[i];
            !IsReserved(m) && !IsReserved(m + 1) && !IsReserved(m + 2)
  {
    StraightDraws(InitialSeq, k);
    var m := Draws(InitialSeq, k)[i];
    PositiveNotReserved(m);
    PositiveNotReserved(m + 1);
    PositiveNotReserved(m + 2);
  }

  /**
   * With one shared counter, an allocation by init() followed by one by
   * filter_frame() (in any instances) gives disjoint id triples, as long as
   * the counter does not wrap in between.
   */
  lemma SharedCounterSeparatesSessions(v: int)
    requires Int32Min <= v <= Int32Max - 4 * Step
    ensures var first := MsgId(v);
            var second := MsgId(v + Advance(v));
            first + 2 < second
  {
    DrawsDisjoint(v, 2);
    assert Draws(v, 2) == [MsgId(v), MsgId(v + Advance(v))];
  }

  /** Allocations compose: k draws and then j more leave the counter where k + j draws do. */
  lemma {:induction false} AfterAppend(v: int, k: nat, j: nat)
    decreases k
    ensures After(v, k + j) == After(After(v, k), j)
  {
    if k > 0 {
      AfterAppend(Next(v), k - 1, j);
    }
  }

  /** The k-th allocation hands out the id of the counter value k allocations on. */
  lemma {:induction false} DrawAt(v: int, k: nat)
    decreases k
    ensures Draws(v, k + 1)[k] == MsgId(After(v, k))
  {
    if k > 0 {
      DrawAt(Next(v), k - 1);
    }
  }

  /**
   * The counter does wrap. `up` allocations from 1 reach INT_MAX (up is
   * 715827882), the next one wraps to INT_MIN + 2, and `down` more reach -3
   * (down is 715827881). That draw is not redrawn, since only the base id is
   * checked, yet its third id, -3 + 2, is the reserved 0xFFFFFFFF.
   */
  lemma WrappedCounterReachesReservedQueueId(up: nat, down: nat)
    requires InitialSeq + Step * up == Int32Max
    requires Int32Min + 2 + Step * down == -3
    ensures var n := up + 1 + down;
            var m := Draws(InitialSeq, n + 1)[n];
            m == -3 && IsReserved(m + 2) && !IsReserved(m)
  {
    StraightDraws(InitialSeq, up);
    PositiveNotReserved(Int32Max);
    assert After(Int32Max, 1) == Int32Min + 2;
    AfterAppend(InitialSeq, up, 1);
    StraightDraws(Int32Min + 2, down);
    AfterAppend(InitialSeq, up + 1, down);
    DrawAt(InitialSeq, up + 1 + down);
  }
}
