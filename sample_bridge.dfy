/**
 * Sample conversion of the tuner (Int2ShortCpy: the engine's 32-bit
 * fixed-point output to 16-bit PCM) and the plain copies the agc and
 * anoisecanceller filters make of the engine's output.
 */
module SampleBridge {
  import opened CTypes

  /** 32767 / 2147483647.99 as the fraction ScaleNum / ScaleDen. */
  const ScaleNum: int := 3276700
  const ScaleDen: int := 214748364799

  /**
   * `(int16_t)(x / 2147483647.99 * 32767)`: scaled, then truncated toward
   * zero, so the result keeps the sign of `x` and its magnitude is at most
   * that of the exact scaled value.
   */
  function Scale(x: int): (r: int)
    ensures 0 <= x ==> 0 <= r && r * ScaleDen <= x * ScaleNum < (r + 1) * ScaleDen
    ensures x <= 0 ==> r <= 0 && (r - 1) * ScaleDen < x * ScaleNum <= r * ScaleDen
  {
    CDiv(x * ScaleNum, ScaleDen)
  }

  /** Every 32-bit input lands in [-32767, 32766], so the cast to int16_t never wraps. */
  lemma ScaleRange(x: int)
    requires Int32Min <= x <= Int32Max
    ensures -32767 <= Scale(x) <= 32766
  {
    if x >= 0 {
      assert x * ScaleNum <= Int32Max * ScaleNum;
      assert Scale(x) * ScaleDen <= x * ScaleNum;
    } else {
      assert -x * ScaleNum <= -Int32Min * ScaleNum;
      assert Scale(x) * ScaleDen - ScaleDen < x * ScaleNum;
    }
  }

  /** The extreme inputs: the largest int gives 32766, the smallest -32767, and 0 stays 0. */
  lemma ScaleExtremes()
    ensures Scale(Int32Max) == 32766
    ensures Scale(Int32Min) == -32767
    ensures Scale(0) == 0
  {
  }

  /** Truncation toward zero makes the conversion odd. */
  lemma ScaleOdd(x: int)
    ensures Scale(-x) == -Scale(x)
  {
  }

  /** A larger fixed-point value never converts to a smaller sample. */
  lemma ScaleMonotonic(x: int, y: int)
    requires x <= y
    ensures Scale(x) <= Scale(y)
  {
    var a, b := x * ScaleNum, y * ScaleNum;
    assert a <= b;
    if 0 <= a {
      DivMonotonic(a, b);
    } else if b < 0 {
      DivMonotonic(-b, -a);
    }
  }

  lemma DivMonotonic(a: nat, b: nat)
    requires a <= b
    ensures a / ScaleDen <= b / ScaleDen
  {
  }

  /** One converted sample: in [-32767, 32766], with the sign of the engine value. */
  function Conv(x: int32): (y: int16)
    ensures -32767 <= y as int <= 32766
    ensures (0 <= x ==> 0 <= y) && (x <= 0 ==> y <= 0)
  {
    ScaleRange(x as int);
    Scale(x as int) as int16
  }

  /** The converted samples of a whole engine buffer. */
  function ConvAll(xs: seq<int32>): seq<int16> {
    seq(|xs|, i requires 0 <= i < |xs| => Conv(xs[i]))
  }

  /**
   * Int2ShortCpy(dst, src, len): nothing happens for len == 0 or a NULL
   * pointer; otherwise dst[i] becomes the converted src[i] for i < len, and
   * every other element of dst is left alone.
   */
  method Int2ShortCpy(dst: array?<int16>, src: array?<int32>, len: int)
    requires dst != null && src != null && len > 0 ==> len <= dst.Length && len <= src.Length
    modifies dst
    ensures dst != null ==> forall i :: 0 <= i < dst.Length ==>
              dst[i] == if src != null && i < len then Conv(src[i]) else old(dst[i])
  {
    if len == 0 || dst == null || src == null {
      return;
    }
    var i := 0;
    while i < len
      invariant 0 <= i && (len >= 0 ==> i <= len) && (len < 0 ==> i == 0)
      invariant forall j :: 0 <= j < dst.Length ==> dst[j] == if j < i then Conv(src[j]) else old(dst[j])
    {
      dst[i] := Conv(src[i]);
      i := i + 1;
    }
  }

  /** memcpy of `n` elements from a buffer the engine returned into `dst`. */
  method Memcpy<T>(dst: array<T>, src: seq<T>, n: nat)
    requires n <= dst.Length && n <= |src|
    modifies dst
    ensures dst[..n] == src[..n]
    ensures dst[n..] == old(dst[n..])
  {
    for i := 0 to n
      invariant dst[..i] == src[..i]
      invariant dst[n..] == old(dst[n..])
    {
      dst[i] := src[i];
    }
  }
}
