/** The numeric limits of `src/sig2str.h`: the buffer-size macros, the choice
    of `SIGNUM_BOUND`, and the fallback values of `SIGRTMIN` and `SIGRTMAX`.
    The preprocessor facts they depend on are collected in `Config`. */
module Limits {
  import opened Wrappers
  import SignalNames

  /** What the preprocessor sees: `_sys_nsig` and `NSIG` when defined,
      whether `__APPLE__` is set, and `SIGRTMIN` / `SIGRTMAX` when defined. */
  datatype Config = Config(
    sysNsig: Option<int>,
    nsig: Option<int>,
    apple: bool,
    rtMin: Option<int>,
    rtMax: Option<int>)

  /** `INT_BITS_STRLEN_BOUND (b)`: decimal digits enough for a `b`-bit unsigned
      value, since 146 / 485 is just above log10 2. */
  function IntBitsStrlenBound(b: nat): nat
  {
    (b * 146 + 484) / 485
  }

  /** `INT_STRLEN_BOUND (t)` for a type `t` of `size` bytes. */
  function IntStrlenBound(size: nat): nat
  {
    IntBitsStrlenBound(size * 8)
  }

  /** `sizeof (int)` on the platforms modelled. */
  const SizeofInt: nat := 4

  /** `SIG2STR_MAX`: `sizeof "SIGRTMAX"` (eight characters and the terminator)
      plus `INT_STRLEN_BOUND (int)`, less one. */
  function Sig2StrMax(intSize: nat): nat
  {
    (|"SIGRTMAX"| + 1) + IntStrlenBound(intSize) - 1
  }

  function Pow2(b: nat): (r: nat)
    ensures r >= 1
  {
    if b == 0 then 1 else 2 * Pow2(b - 1)
  }

  /** Number of decimal digits of `n`. */
  function Digits(n: nat): (d: nat)
    ensures d >= 1
  {
    if n < 10 then 1 else 1 + Digits(n / 10)
  }

  lemma {:induction false} Pow2Add(a: nat, b: nat)
    ensures Pow2(a + b) == Pow2(a) * Pow2(b)
  {
    if a > 0 {
      Pow2Add(a - 1, b);
      assert Pow2(a + b) == 2 * Pow2(a - 1 + b);
    }
  }

  lemma {:induction false} DigitsMonotone(m: nat, n: nat)
    requires m <= n
    ensures Digits(m) <= Digits(n)
  {
    if m >= 10 {
      DigitsMonotone(m / 10, n / 10);
    }
  }

  lemma Pow2Widths()
    ensures Pow2(8) == 0x100
    ensures Pow2(16) == 0x1_0000
    ensures Pow2(32) == 0x1_0000_0000
    ensures Pow2(64) == 0x1_0000_0000_0000_0000
  {
    assert Pow2(8) == 0x100;
    Pow2Add(8, 8);
    Pow2Add(16, 16);
    Pow2Add(32, 32);
  }

  /** For the usual widths the bound is exactly the number of digits of the
      largest unsigned value, so it never falls short. */
  lemma StrlenBoundCoversWidths(b: nat)
    requires b == 8 || b == 16 || b == 32 || b == 64
    ensures Digits(Pow2(b) - 1) == IntBitsStrlenBound(b)
  {
    Pow2Widths();
    if b == 8 {
      assert Digits(255) == 3;
    } else if b == 16 {
      assert Digits(65535) == 5;
    } else if b == 32 {
      assert Digits(4294967295) == 10;
    } else {
      assert Digits(1844674407) == 10;
      assert Digits(18446744073709551615) == 10 + Digits(1844674407);
    }
  }

  /** With a 32-bit `int`: `INT_STRLEN_BOUND (int)` is 10 and the header's
      `SIG2STR_MAX` is 18.  The header defines these only when the system has
      no `SIG2STR_MAX` of its own. */
  lemma Sig2StrMaxForInt()
    ensures IntStrlenBound(SizeofInt) == 10
    ensures Sig2StrMax(SizeofInt) == 9 + 10 - 1 == 18
  {
  }

  /** The header's `SIG2STR_MAX` buffer holds any master-list name with its
      terminator. */
  lemma Sig2StrMaxFitsNames(s: SignalNames.Sig)
    ensures |SignalNames.Name(s)| + 1 <= Sig2StrMax(SizeofInt)
  {
    SignalNames.NamesValid(s);
  }

  /** A `SIG2STR_MAX` buffer holds a real-time name "RTMIN+n" or "RTMAX-n",
      terminator included, for any offset a 32-bit `int` can hold. */
  lemma Sig2StrMaxFitsRealTimeNames(offset: nat)
    requires offset < Pow2(31)
    ensures |"RTMAX-"| + Digits(offset) + 1 <= Sig2StrMax(SizeofInt)
  {
    Pow2Add(31, 1);
    Pow2Widths();
    StrlenBoundCoversWidths(32);
    DigitsMonotone(offset, Pow2(32) - 1);
  }

  /** `SIGNUM_BOUND`: `_sys_nsig - 1` if defined, else `NSIG - 1` if defined,
      else 32 on Apple, else 64. */
  function SignumBound(c: Config): int
  {
    if c.sysNsig.Some? then c.sysNsig.value - 1
    else if c.nsig.Some? then c.nsig.value - 1
    else if c.apple then 32
    else 64
  }

  /** The sources of `SIGNUM_BOUND` are tried in priority order: once one is
      present, the lower-priority ones do not matter. */
  lemma SignumBoundPriority(c: Config, nsig: Option<int>, apple: bool)
    ensures c.sysNsig.Some? ==> SignumBound(c.(nsig := nsig, apple := apple)) == c.sysNsig.value - 1
    ensures c.sysNsig.None? && c.nsig.Some? ==> SignumBound(c.(apple := apple)) == c.nsig.value - 1
    ensures c.sysNsig.None? && c.nsig.None? ==> (SignumBound(c) == 32 <==> c.apple)
    ensures c.sysNsig.None? && c.nsig.None? ==> SignumBound(c) in {32, 64}
  {
  }

  /** The real-time signal range `[SIGRTMIN, SIGRTMAX]` as the header fixes it. */
  datatype RtRange = RtRange(min: int, max: int)
  {
    predicate Contains(n: int)
    {
      min <= n <= max
    }
  }

  /** Without `SIGRTMIN`, the header defines it as 0 and discards any
      `SIGRTMAX`; without `SIGRTMAX`, it is `SIGRTMIN - 1`. */
  function RealTimeRange(c: Config): RtRange
  {
    var min := if c.rtMin.Some? then c.rtMin.value else 0;
    var max := if c.rtMin.Some? && c.rtMax.Some? then c.rtMax.value else min - 1;
    RtRange(min, max)
  }

  /** The fallbacks: `SIGRTMIN = 0, SIGRTMAX = -1` when `SIGRTMIN` is missing,
      `SIGRTMAX = SIGRTMIN - 1` when only `SIGRTMAX` is missing; either way no
      signal number is in the real-time range.  Both defined, both are kept. */
  lemma RealTimeRangeDefaults(c: Config, n: int)
    ensures c.rtMin.None? ==> RealTimeRange(c) == RtRange(0, -1)
    ensures c.rtMin.Some? && c.rtMax.None? ==> RealTimeRange(c) == RtRange(c.rtMin.value, c.rtMin.value - 1)
    ensures c.rtMin.None? || c.rtMax.None? ==> !RealTimeRange(c).Contains(n)
    ensures c.rtMin.Some? && c.rtMax.Some? ==> RealTimeRange(c) == RtRange(c.rtMin.value, c.rtMax.value)
  {
  }
}
