/**
 * The payload of the tuner's runtime equalizer command: ten colon-separated
 * ints read with `sscanf(args, "%d:%d:...:%d")`, and the per-band updates
 * they request, where 0xFF in a slot leaves that band alone.
 */
module EqCommand {

  const Bands: nat := 10

  /** The gain value that means "leave this band unchanged". */
  const Keep: int := 0xFF

  predicate IsDigit(c: char) { '0' <= c <= '9' }

  /** C's isspace in the "C" locale: space, \t, \n, \v, \f, \r. */
  predicate IsSpace(c: char) { c == ' ' || 9 <= c as int <= 13 }

  function DigitValue(c: char): nat
    requires IsDigit(c)
  {
    c as int - '0' as int
  }

  /** The input with its leading white space removed, as `%d` does first. */
  function SkipSpace(s: string): (t: string)
    ensures t == [] || !IsSpace(t[0])
    ensures |t| <= |s|
  {
    if s != [] && IsSpace(s[0]) then SkipSpace(s[1..]) else s
  }

  /** Length of the run of digits at the start of `s`. */
  function DigitRun(s: string): (n: nat)
    ensures n <= |s|
    ensures forall i :: 0 <= i < n ==> IsDigit(s[i])
    ensures n < |s| ==> !IsDigit(s[n])
  {
    if s != [] && IsDigit(s[0]) then 1 + DigitRun(s[1..]) else 0
  }

  /** The value of a string of decimal digits, most significant first. */
  function DigitsValue(ds: string): nat
    requires forall i :: 0 <= i < |ds| ==> IsDigit(ds[i])
  {
    if ds == [] then 0 else DigitsValue(ds[..|ds| - 1]) * 10 + DigitValue(ds[|ds| - 1])
  }

  /** The outcome of one `%d` conversion: no match, or the value and the unread input. */
  datatype Scan = Mismatch | Converted(value: int, rest: string)

  /** The digits part of `%d`: at least one digit, as many as there are. */
  function ScanDigits(u: string): Scan {
    var n := DigitRun(u);
    if n == 0 then Mismatch else Converted(DigitsValue(u[..n]), u[n..])
  }

  /**
   * One `%d` conversion: white space, an optional sign, then the digits.
   * A conversion consumes at least one character.
   */
  function ScanInt(s: string): (r: Scan)
    ensures r.Converted? ==> |r.rest| < |s|
  {
    var t := SkipSpace(s);
    if t != [] && t[0] == '-' then
      match ScanDigits(t[1..])
      case Mismatch => Mismatch
      case Converted(m, rest) => Converted(-m, rest)
    else if t != [] && t[0] == '+' then ScanDigits(t[1..])
    else ScanDigits(t)
  }

  /**
   * The values converted by the format's conversions k, k+1, ..., 9, each
   * after the first preceded by a literal ':'; scanning stops at the first
   * mismatch, and whatever follows the last conversion is ignored.
   */
  function ScanFrom(s: string, k: nat): (vs: seq<int>)
    requires k < Bands
    ensures |vs| <= Bands - k
    decreases Bands - k
  {
    match ScanInt(s)
    case Mismatch => []
    case Converted(v, rest) =>
      if k == Bands - 1 then [v]
      else if rest != [] && rest[0] == ':' then [v] + ScanFrom(rest[1..], k + 1)
      else [v]
  }

  /** The ints sscanf assigns; the command goes ahead only when there are ten. */
  function ScanGains(args: string): (vs: seq<int>)
    ensures |vs| <= Bands
  {
    ScanFrom(args, 0)
  }

  /** Decimal digits of n, most significant first. */
  function NatText(n: nat): (s: string)
    ensures |s| > 0 && forall i :: 0 <= i < |s| ==> IsDigit(s[i])
  {
    var d := ['0' + (n % 10) as char];
    if n < 10 then d else NatText(n / 10) + d
  }

  /** An int as printf's `%d` writes it. */
  function IntText(v: int): string {
    if v < 0 then "-" + NatText(-v) else NatText(v)
  }

  /** The payload "v0:v1:...:vn" a client sends for the gains `vs`. */
  function FormatGains(vs: seq<int>): string
    decreases |vs|
  {
    if vs == [] then []
    else if |vs| == 1 then IntText(vs[0])
    else IntText(vs[0]) + ":" + FormatGains(vs[1..])
  }

  lemma {:induction false} NatTextValue(n: nat)
    ensures DigitsValue(NatText(n)) == n
    decreases n
  {
    var d := ['0' + (n % 10) as char];
    if n >= 10 {
      var s := NatText(n / 10) + d;
      assert s[..|s| - 1] == NatText(n / 10);
      NatTextValue(n / 10);
    }
  }

  lemma {:induction false} DigitRunAppend(ds: string, rest: string)
    requires forall i :: 0 <= i < |ds| ==> IsDigit(ds[i])
    requires rest == [] || !IsDigit(rest[0])
    ensures DigitRun(ds + rest) == |ds|
    decreases |ds|
  {
    if ds != [] {
      assert (ds + rest)[1..] == ds[1..] + rest;
      DigitRunAppend(ds[1..], rest);
    }
  }

  /** A digit string followed by a non-digit converts to its value and leaves the rest. */
  lemma ScanDigitsText(digits: string, rest: string)
    requires |digits| > 0 && forall i :: 0 <= i < |digits| ==> IsDigit(digits[i])
    requires rest == [] || !IsDigit(rest[0])
    ensures ScanDigits(digits + rest) == Converted(DigitsValue(digits), rest)
  {
    DigitRunAppend(digits, rest);
    var u := digits + rest;
    assert u[..|digits|] == digits;
    assert u[|digits|..] == rest;
  }

  /** `%d` reads back exactly what `%d` printed, and stops where the number ends. */
  lemma ScanIntText(v: int, rest: string)
    requires rest == [] || !IsDigit(rest[0])
    ensures ScanInt(IntText(v) + rest) == Converted(v, rest)
  {
    if v < 0 {
      ScanNegativeText(-v, rest);
    } else {
      ScanNaturalText(v, rest);
    }
  }

  lemma ScanNaturalText(n: nat, rest: string)
    requires rest == [] || !IsDigit(rest[0])
    ensures ScanInt(NatText(n) + rest) == Converted(n, rest)
  {
    var u := NatText(n) + rest;
    ScanDigitsText(NatText(n), rest);
    NatTextValue(n);
    assert IsDigit(u[0]);
    assert SkipSpace(u) == u;
  }

  lemma ScanNegativeText(n: nat, rest: string)
    requires n > 0
    requires rest == [] || !IsDigit(rest[0])
    ensures ScanInt("-" + NatText(n) + rest) == Converted(-(n as int), rest)
  {
    var u := NatText(n) + rest;
    var s := "-" + NatText(n) + rest;
    ScanDigitsText(NatText(n), rest);
    NatTextValue(n);
    assert s[1..] == u;
    assert SkipSpace(s) == s;
  }

  /**
   * The payload a client formats from ten gains scans back to those gains,
   * whatever follows it as long as it does not extend the last number.
   */
  lemma {:induction false} ScanFormatRoundTrip(vs: seq<int>, k: nat, tail: string)
    requires k < Bands && |vs| == Bands - k
    requires tail == [] || !IsDigit(tail[0])
    ensures ScanFrom(FormatGains(vs) + tail, k) == vs
    decreases Bands - k
  {
    if |vs| == 1 {
      ScanIntText(vs[0], tail);
    } else {
      var more := FormatGains(vs[1..]) + tail;
      FormatGainsCons(vs, tail);
      ScanIntText(vs[0], [':'] + more);
      ScanFromColon(FormatGains(vs) + tail, k, vs[0], more);
      ScanFormatRoundTrip(vs[1..], k + 1, tail);
      assert vs == [vs[0]] + vs[1..];
    }
  }

  lemma FormatGainsCons(vs: seq<int>, tail: string)
    requires |vs| > 1
    ensures FormatGains(vs) + tail == IntText(vs[0]) + ([':'] + (FormatGains(vs[1..]) + tail))
  {
    var a, b := IntText(vs[0]), FormatGains(vs[1..]);
    assert FormatGains(vs) == a + ":" + b;
    ColonAssoc(a, b, tail);
  }

  lemma ColonAssoc(a: string, b: string, tail: string)
    ensures a + ":" + b + tail == a + ([':'] + (b + tail))
  {
  }

  /** A conversion followed by ':' goes on with the next conversion. */
  lemma ScanFromColon(s: string, k: nat, v: int, more: string)
    requires k < Bands - 1
    requires ScanInt(s) == Converted(v, [':'] + more)
    ensures ScanFrom(s, k) == [v] + ScanFrom(more, k + 1)
  {
    assert ([':'] + more)[1..] == more;
  }

  lemma ScanGainsRoundTrip(vs: seq<int>)
    requires |vs| == Bands
    ensures ScanGains(FormatGains(vs)) == vs
  {
    assert FormatGains(vs) + [] == FormatGains(vs);
    ScanFormatRoundTrip(vs, 0, []);
  }

  /** One setEqOption request: band index and gain. */
  datatype BandGain = BandGain(band: nat, gain: int)

  /** The requests the loop over bands 0 .. n-1 issues for the gains `g`, in band order. */
  function Updates(g: seq<int>, n: nat): (us: seq<BandGain>)
    requires n <= |g|
    ensures |us| <= n
  {
    if n == 0 then []
    else Updates(g, n - 1) + (if g[n - 1] == Keep then [] else [BandGain(n - 1, g[n - 1])])
  }

  /** Band i is updated, with gain g[i], exactly when i < n and g[i] is not 0xFF. */
  lemma {:induction false} UpdatesExact(g: seq<int>, n: nat, u: BandGain)
    requires n <= |g|
    ensures u in Updates(g, n) <==> u.band < n && g[u.band] != Keep && u.gain == g[u.band]
    decreases n
  {
    if n > 0 {
      UpdatesExact(g, n - 1, u);
    }
  }

  /** The requests go out in strictly increasing band order, so each band at most once. */
  lemma {:induction false} UpdatesOrdered(g: seq<int>, n: nat)
    requires n <= |g|
    ensures forall i, j :: 0 <= i < j < |Updates(g, n)| ==> Updates(g, n)[i].band < Updates(g, n)[j].band
    ensures forall i :: 0 <= i < |Updates(g, n)| ==> Updates(g, n)[i].band < n
    decreases n
  {
    if n > 0 {
      UpdatesOrdered(g, n - 1);
    }
  }

  /** Ten 0xFF values make no engine call. */
  lemma {:induction false} AllKeepNoUpdates(g: seq<int>, n: nat)
    requires n <= |g|
    requires forall i :: 0 <= i < |g| ==> g[i] == Keep
    ensures Updates(g, n) == []
    decreases n
  {
    if n > 0 {
      AllKeepNoUpdates(g, n - 1);
    }
  }
}
