/*
 * The set-up routines of a module that are built from the bus primitives:
 * ConfigureMasterClock, ConfigureSlaveXilinx, ADCAdjust and Init.  They are
 * modelled one level above the serial buses.  Each primitive they call
 * (ICXRead, ICXWrite, ADCWrite, I2CRead, I2CWrite, DACSet, ADCCheckSeq,
 * ConfigureSlaveClock) is one logged `Call`, and what it returns is the next
 * answer of the environment: a value for a read, a return code for the
 * others.  The register-level behaviour of the primitives themselves is
 * modelled by Uwfd64.Module and by Si5338.
 *
 * The routines differ only in what they do with a failing call: the
 * configuration routines count it and go on (`Tally`), ADCAdjust returns at
 * the first one with a code that names the step and the ADC (`Run`).
 */
module Setup {
  import opened RegMap
  import opened Config
  import opened Fifo
  import Script
  import Uwfd64

  // ---------------------------------------------------------------- calls and answers

  /** One call of a bus primitive. */
  datatype Call =
    | IcxWr(addr: int, val: int)
    | IcxRd(addr: int)
    | AdcWr(num: int, reg: int, val: int)
    | I2cWr(reg: int, val: int)
    | I2cRd(reg: int)
    | DacWr(val: int)
    | CheckSeq(time: int, xilmask: int)
    | SlaveClock(num: int)

  /** What the `k`-th call returns: the environment's `k`-th answer, and 0 once its answers run out. */
  function Answer(env: seq<int>, k: nat): int
  {
    if k < |env| then env[k] else 0
  }

  /** How a routine judges what a call returned. */
  datatype Test =
    | Nonzero                      // a return code other than 0
    | Differs(want: int)           // a read-back other than the value written
    | Far(centre: int, tol: int)   // a count further than `tol` from `centre`
    | Never                        // the answer is only displayed

  predicate Bad(t: Test, v: int)
  {
    match t
    case Nonzero => v != 0
    case Differs(want) => v != want
    case Far(centre, tol) => v - centre > tol || centre - v > tol
    case Never => false
  }

  // ---------------------------------------------------------------- counting failures

  /**
   * A call whose failure counts one error.  With `echo` the error message
   * makes the same call once more to display its result.
   */
  datatype Tick = Tick(call: Call, test: Test, echo: bool)

  function Count(c: Call): Tick
  {
    Tick(c, Nonzero, false)
  }

  /** The calls made, in order, when none fails. */
  function TickCalls(ts: seq<Tick>): (cs: seq<Call>)
    ensures |cs| == |ts| && forall k :: 0 <= k < |ts| ==> cs[k] == ts[k].call
    decreases |ts|
  {
    if ts == [] then [] else TickCalls(ts[..|ts| - 1]) + [ts[|ts| - 1].call]
  }

  /**
   * The error count and the call log after making the calls `ts` one after
   * another from `log`, counting every failure and going on.
   */
  function Tally(ts: seq<Tick>, env: seq<int>, log: seq<Call>): (int, seq<Call>)
    decreases |ts|
  {
    if ts == [] then (0, log)
    else
      var p := Tally(ts[..|ts| - 1], env, log);
      var t := ts[|ts| - 1];
      if Bad(t.test, Answer(env, |p.1|)) then (p.0 + 1, p.1 + if t.echo then [t.call, t.call] else [t.call])
      else (p.0, p.1 + [t.call])
  }

  /**
   * Every call is made and logged after what came before; the count is at
   * most one per call, and the log grows by one entry per call plus at most
   * one displaying call per error.
   */
  lemma {:induction false} TallyBounds(ts: seq<Tick>, env: seq<int>, log: seq<Call>)
    ensures 0 <= Tally(ts, env, log).0 <= |ts|
    ensures |log| + |ts| <= |Tally(ts, env, log).1| <= |log| + |ts| + Tally(ts, env, log).0
    ensures Tally(ts, env, log).1[..|log|] == log
    decreases |ts|
  {
    if ts != [] {
      TallyBounds(ts[..|ts| - 1], env, log);
      var p := Tally(ts[..|ts| - 1], env, log);
      assert p.1[..|log|] == log;
      var r := Tally(ts, env, log);
      assert r.1[..|p.1|] == p.1;
      assert r.1[..|log|] == p.1[..|log|];
    }
  }

  /**
   * No error is counted exactly when the `k`-th call answers well for every
   * `k`; the calls are then exactly `ts`'s, in order.
   */
  lemma {:induction false} TallyClean(ts: seq<Tick>, env: seq<int>, log: seq<Call>)
    ensures Tally(ts, env, log).0 == 0 <==> forall k :: 0 <= k < |ts| ==> !Bad(ts[k].test, Answer(env, |log| + k))
    ensures Tally(ts, env, log).0 == 0 ==> Tally(ts, env, log).1 == log + TickCalls(ts)
    decreases |ts|
  {
    if ts != [] {
      var n := |ts| - 1;
      var q := ts[..n];
      TallyClean(q, env, log);
      TallyBounds(q, env, log);
      var p := Tally(q, env, log);
      if p.0 == 0 {
        assert forall k :: 0 <= k < n ==> q[k] == ts[k];
      } else {
        TallyBounds(ts, env, log);
        assert Tally(ts, env, log).0 > 0;
      }
    }
  }

  /** Making the calls `a + b` is making `a`, then `b` from where `a` left the log, and adding the counts. */
  lemma {:induction false} TallyAppend(a: seq<Tick>, b: seq<Tick>, env: seq<int>, log: seq<Call>)
    ensures Tally(a + b, env, log).0 == Tally(a, env, log).0 + Tally(b, env, Tally(a, env, log).1).0
    ensures Tally(a + b, env, log).1 == Tally(b, env, Tally(a, env, log).1).1
    decreases |b|
  {
    if b == [] {
      assert a + b == a;
    } else {
      var n := |b| - 1;
      assert (a + b)[..|a + b| - 1] == a + b[..n];
      TallyAppend(a, b[..n], env, log);
    }
  }

  // ---------------------------------------------------------------- stopping at the first failure

  /**
   * A call after whose failure a routine returns at once: with `code`, or
   * with the failing call's own result when `code` is 0.
   */
  datatype Guard = Guard(call: Call, test: Test, code: int)

  function Exit(g: Guard, v: int): int
  {
    if g.code == 0 then v else g.code
  }

  /** A guard whose failure is reported as an error: its code, or the nonzero result it hands on. */
  predicate Reports(g: Guard)
  {
    g.code != 0 || g.test == Nonzero
  }

  function GuardCalls(gs: seq<Guard>): (cs: seq<Call>)
    ensures |cs| == |gs| && forall k :: 0 <= k < |gs| ==> cs[k] == gs[k].call
    decreases |gs|
  {
    if gs == [] then [] else GuardCalls(gs[..|gs| - 1]) + [gs[|gs| - 1].call]
  }

  /** The return code and the call log after making the calls `gs` from `log` up to the first failure. */
  function Run(gs: seq<Guard>, env: seq<int>, log: seq<Call>): (r: (int, seq<Call>))
    ensures |log| <= |r.1| <= |log| + |gs| && r.1[..|log|] == log
    decreases |gs|
  {
    if gs == [] then (0, log)
    else
      var p := Run(gs[..|gs| - 1], env, log);
      var g := gs[|gs| - 1];
      if p.0 != 0 then p
      else if Bad(g.test, Answer(env, |p.1|)) then (Exit(g, Answer(env, |p.1|)), p.1 + [g.call])
      else (0, p.1 + [g.call])
  }

  /**
   * When every guard reports its failure, the run succeeds exactly when
   * every call answers well, and it has then made every call, in order.
   */
  lemma {:induction false} RunClean(gs: seq<Guard>, env: seq<int>, log: seq<Call>)
    requires forall g :: g in gs ==> Reports(g)
    ensures Run(gs, env, log).0 == 0 <==> forall k :: 0 <= k < |gs| ==> !Bad(gs[k].test, Answer(env, |log| + k))
    ensures Run(gs, env, log).0 == 0 ==> Run(gs, env, log).1 == log + GuardCalls(gs)
    decreases |gs|
  {
    if gs != [] {
      var n := |gs| - 1;
      var q := gs[..n];
      assert forall k :: 0 <= k < n ==> q[k] == gs[k];
      RunClean(q, env, log);
      var g := gs[n];
      assert g in gs;
      var p := Run(q, env, log);
      if p.0 == 0 && Bad(g.test, Answer(env, |p.1|)) {
        ExitReports(g, Answer(env, |p.1|));
      }
    }
  }

  lemma ExitReports(g: Guard, v: int)
    requires Reports(g) && Bad(g.test, v)
    ensures Exit(g, v) != 0
  {
  }

  /**
   * A failed run stopped at its first failing call `k`: every earlier call
   * answered well, the result is what guard `k` returns, and no call after
   * it was made.
   */
  lemma {:induction false} RunStops(gs: seq<Guard>, env: seq<int>, log: seq<Call>)
    requires forall g :: g in gs ==> Reports(g)
    requires Run(gs, env, log).0 != 0
    ensures exists k :: 0 <= k < |gs| && Stopped(gs, env, log, k)
    decreases |gs|
  {
    var n := |gs| - 1;
    var q := gs[..n];
    assert forall k :: 0 <= k < n ==> q[k] == gs[k];
    assert forall g :: g in q ==> g in gs;
    var p := Run(q, env, log);
    if p.0 != 0 {
      RunStops(q, env, log);
      var k :| 0 <= k < n && Stopped(q, env, log, k);
      assert q[..k + 1] == gs[..k + 1];
      assert Stopped(gs, env, log, k);
    } else {
      RunClean(q, env, log);
      assert |p.1| == |log| + n;
      var v := Answer(env, |log| + n);
      assert Bad(gs[n].test, v);
      assert Run(gs, env, log) == (Exit(gs[n], v), p.1 + [gs[n].call]);
      assert gs[..n + 1] == gs;
      assert Stopped(gs, env, log, n);
    }
  }

  predicate Stopped(gs: seq<Guard>, env: seq<int>, log: seq<Call>, k: nat)
    requires k < |gs|
  {
    (forall j :: 0 <= j < k ==> !Bad(gs[j].test, Answer(env, |log| + j))) &&
    Bad(gs[k].test, Answer(env, |log| + k)) &&
    Run(gs, env, log).0 == Exit(gs[k], Answer(env, |log| + k)) &&
    Run(gs, env, log).1 == log + GuardCalls(gs[..k + 1])
  }

  // ---------------------------------------------------------------- ADCAdjust

  /** Bit `k` of a C `int` in two's complement (floor division is the arithmetic shift). */
  predicate Bit(x: int, k: nat)
  {
    (x / Pow2(k)) % 2 == 1
  }

  /** `adcmask & (0xF << 4 * x)` is nonzero: one of the four ADCs of slave Xilinx `x` is selected. */
  predicate Touched(adcmask: int, x: nat)
  {
    Bit(adcmask, 4 * x) || Bit(adcmask, 4 * x + 1) || Bit(adcmask, 4 * x + 2) || Bit(adcmask, 4 * x + 3)
  }

  /** The mask of slave Xilinxes ADCAdjust involves. */
  function XilMask(adcmask: int): int
  {
    Nibble(Touched(adcmask, 0), Touched(adcmask, 1), Touched(adcmask, 2), Touched(adcmask, 3))
  }

  /** The four-bit number whose bits are `b0` to `b3`. */
  function Nibble(b0: bool, b1: bool, b2: bool, b3: bool): int
  {
    (if b0 then 1 else 0) + 2 * ((if b1 then 1 else 0) + 2 * ((if b2 then 1 else 0) + 2 * (if b3 then 1 else 0)))
  }

  /** Bit `x` of the Xilinx mask is set exactly when one of Xilinx `x`'s ADCs is selected. */
  lemma XilMaskBits(adcmask: int, x: nat)
    requires x < 4
    ensures Bit(XilMask(adcmask), x) <==> Touched(adcmask, x)
  {
    NibbleBits(Touched(adcmask, 0), Touched(adcmask, 1), Touched(adcmask, 2), Touched(adcmask, 3), x);
  }

  lemma NibbleBits(b0: bool, b1: bool, b2: bool, b3: bool, x: nat)
    requires x < 4
    ensures Bit(Nibble(b0, b1, b2, b3), x) <==> if x == 0 then b0 else if x == 1 then b1 else if x == 2 then b2 else b3
  {
    var m := Nibble(b0, b1, b2, b3);
    var m1 := Nibble(b1, b2, b3, false);
    var m2 := Nibble(b2, b3, false, false);
    var m3 := Nibble(b3, false, false, false);
    assert m / 2 == m1 && m1 / 2 == m2 && m2 / 2 == m3;
    BitShift(m, 0);
    if x >= 1 {
      BitShift(m, x - 1);
      BitShift(m1, 0);
      if x >= 2 {
        BitShift(m1, x - 2);
        BitShift(m2, 0);
        if x == 3 {
          BitShift(m2, 0);
          BitShift(m3, 0);
        }
      }
    }
  }

  /** Bit `k + 1` of `a` is bit `k` of `a / 2`. */
  lemma BitShift(a: int, k: nat)
    ensures Bit(a, k + 1) == Bit(a / 2, k)
    ensures Bit(a, 0) == (a % 2 == 1)
  {
    var p := Pow2(k);
    var h := a / 2;
    assert Pow2(k + 1) == 2 * p;
    assert a == 2 * p * (h / p) + (2 * (h % p) + a % 2) by {
      assert a == 2 * h + a % 2;
      assert h == p * (h / p) + h % p;
    }
    DivUnique(a, 2 * p, h / p, 2 * (h % p) + a % 2);
  }

  lemma {:induction false} Pow2Grows(a: nat, b: nat)
    requires a <= b
    ensures Pow2(a) <= Pow2(b)
    decreases b
  {
    if a < b {
      Pow2Grows(a, b - 1);
    }
  }

  /** The receiver CSR of ADC `i` on its slave Xilinx. */
  function AdcCsr(i: int): int
  {
    AdcBase(i) + ICX_SLAVE_ADC_CSR
  }

  function Fails3(c: Call): Guard
  {
    Guard(c, Nonzero, -3)
  }

  /** An ADCCheckSeq over the involved Xilinxes, whose nonzero result ADCAdjust returns as it is. */
  function Check(time: int, adcmask: int): Guard
  {
    Guard(CheckSeq(time, XilMask(adcmask)), Nonzero, 0)
  }

  /** The IODELAY increment command for all bit lines and the frame. */
  const DELAY_STEP: int := SLAVE_ADCCSR_DINC + 0x1FF

  /** The clock frequency count expected after a measurement of time 2: 1 << 15. */
  const FREQ_COUNT: int := 0x8000

  /** What one pass of ADCAdjust's loops over the ADCs does for each ADC. */
  datatype Pass =
    | Frequency         // read the clock frequency count: within 2 of nominal, or -10 - i
    | Prepare           // user pattern 0xE380, IODELAY calibrate and SERDES reset, IODELAY reset: or -3
    | Scan(hot: bool)   // nine instability counters (errors -30 - i when `hot`), one IODELAY step
    | Delay(d: int)     // IODELAY reset and `d` steps
    | MasterSlip        // enable the frame bitslip
    | BitSlip           // enable the bit-line bitslips
    | Slipped           // a bit-line bitslip happened: -50 - i
    | Pn23              // ADC to the PN23 test sequence
    | Errors            // four PN23 error counters: -70 - i
    | Normal            // ADC back to normal conversion

  /** The calls pass `p` makes for ADC `i`. */
  function AdcCalls(p: Pass, i: int): seq<Guard>
  {
    match p
    case Frequency => [Guard(IcxRd(AdcBase(i) + ICX_SLAVE_ADC_CFRQ), Far(FREQ_COUNT, 2), -10 - i)]
    case Prepare =>
      [Fails3(AdcWr(i, ADC_REG_PAT1L, 0x80)), Fails3(AdcWr(i, ADC_REG_PAT1H, 0xE3)),
       Fails3(AdcWr(i, ADC_REG_TEST, ADC_TEST_USER)),
       Fails3(IcxWr(AdcCsr(i), SLAVE_ADCCSR_DCAL + SLAVE_ADCCSR_BSRST)),
       Fails3(IcxWr(AdcCsr(i), SLAVE_ADCCSR_DRST))]
    case Scan(hot) =>
      Reads(AdcBase(i) + ICX_SLAVE_ADC_CINS, 9, if hot then Nonzero else Never, -30 - i)
      + [Fails3(IcxWr(AdcCsr(i), DELAY_STEP))]
    case Delay(d) => [Fails3(IcxWr(AdcCsr(i), SLAVE_ADCCSR_DRST))] + Steps(AdcCsr(i), d)
    case MasterSlip => [Fails3(IcxWr(AdcCsr(i), SLAVE_ADCCSR_MBSENB))]
    case BitSlip => [Fails3(IcxWr(AdcCsr(i), SLAVE_ADCCSR_BSENB))]
    case Slipped => [Guard(IcxRd(AdcBase(i) + ICX_SLAVE_ADC_IBS), Nonzero, -50 - i)]
    case Pn23 => [Fails3(AdcWr(i, ADC_REG_TEST, ADC_TEST_PN23))]
    case Errors => Reads(AdcBase(i) + ICX_SLAVE_ADC_CERR, 4, Nonzero, -70 - i)
    case Normal => [Fails3(AdcWr(i, ADC_REG_TEST, 0))]
  }

  /** Reads of the `n` counters from `base` on, each judged by `t`. */
  function Reads(base: int, n: nat, t: Test, code: int): seq<Guard>
  {
    if n == 0 then [] else Reads(base, n - 1, t, code) + [Guard(IcxRd(base + n - 1), t, code)]
  }

  /** `d` IODELAY steps of one receiver (none for a negative `d`). */
  function Steps(csr: int, d: int): (s: seq<Guard>)
    ensures |s| == (if d > 0 then d else 0) && forall k :: 0 <= k < |s| ==> s[k] == Fails3(IcxWr(csr, DELAY_STEP))
    decreases d
  {
    if d <= 0 then [] else Steps(csr, d - 1) + [Fails3(IcxWr(csr, DELAY_STEP))]
  }

  /** Pass `p` over the selected ADCs among the first `n`, in order. */
  function Over(m: int, p: Pass, n: nat): seq<Guard>
  {
    if n == 0 then [] else Over(m, p, n - 1) + (if Bit(m, n - 1) then AdcCalls(p, n - 1) else [])
  }

  function ForAdcs(m: int, p: Pass): seq<Guard>
  {
    Over(m, p, 16)
  }

  /**
   * Row `j` of the delay scan: an instability measurement, then for every
   * ADC its counters and one IODELAY step.  A counter is an error only
   * within 5 steps of the configured delay `d`.
   */
  function ScanRow(m: int, d: int, j: int): seq<Guard>
  {
    [Check(2, m)] + ForAdcs(m, Scan(d - 5 <= j <= d + 5))
  }

  function Rows(m: int, d: int, n: nat): seq<Guard>
  {
    if n == 0 then [] else Rows(m, d, n - 1) + ScanRow(m, d, n - 1)
  }

  /** The PN23 check type set in every Xilinx among the first `n` that mask `xm` selects. */
  function Xilinxes(xm: int, n: nat): seq<Guard>
  {
    if n == 0 then []
    else Xilinxes(xm, n - 1) + (if Bit(xm, n - 1) then [Fails3(IcxWr(ICX_SLAVE_STEP * (n - 1) + ICX_SLAVE_CSR_OUT, ADC_TEST_PN23))] else [])
  }

  /** Frequency check, then the pattern and IODELAY/SERDES reset, then (bit 17) the 80-row delay scan. */
  function ScanPhases(m: int, d: int): seq<Guard>
  {
    [Check(2, m)] + ForAdcs(m, Frequency) + ForAdcs(m, Prepare) + (if Bit(m, 17) then Rows(m, d, 80) else [])
  }

  /** Bitslip settling, then the PN23 check, then normal mode. */
  function CheckPhases(m: int): seq<Guard>
  {
    ForAdcs(m, MasterSlip) + ForAdcs(m, BitSlip) + [Check(1, m)] + ForAdcs(m, Slipped) + ForAdcs(m, MasterSlip)
    + ForAdcs(m, Pn23) + Xilinxes(XilMask(m), 4) + [Check(3, m)] + ForAdcs(m, Errors) + ForAdcs(m, Normal)
  }

  /** The calls ADCAdjust makes for ADC mask `m` and configured delay `d`, each with its exit. */
  function AdjustOps(m: int, d: int): seq<Guard>
  {
    ScanPhases(m, d) + ForAdcs(m, Delay(d)) + CheckPhases(m)
  }

  // ---------------------------------------------------------------- what ADCAdjust touches and returns

  /** An error code of ADCAdjust that names a failing step and, but for -3, a selected ADC. */
  predicate Names(code: int, m: int)
  {
    code == -3 ||
    (-25 <= code <= -10 && Bit(m, -10 - code)) ||
    (-45 <= code <= -30 && Bit(m, 17) && Bit(m, -30 - code)) ||
    (-65 <= code <= -50 && Bit(m, -50 - code)) ||
    (-85 <= code <= -70 && Bit(m, -70 - code))
  }

  /** ICX address `a` lies on a Xilinx that has a selected ADC, and in a selected ADC's receiver block if in any. */
  predicate OnSelected(a: int, m: int)
  {
    0 <= a / ICX_SLAVE_STEP < 4 && Touched(m, a / ICX_SLAVE_STEP) &&
    (a % ICX_SLAVE_STEP >= ICX_SLAVE_ADC ==> 0 <= AdcOfAddress(a).0 < 16 && Bit(m, AdcOfAddress(a).0))
  }

  /** A call that concerns only the ADCs mask `m` selects and their Xilinxes. */
  predicate Confined(c: Call, m: int)
  {
    match c
    case AdcWr(num, _, _) => 0 <= num < 16 && Bit(m, num)
    case IcxWr(a, _) => OnSelected(a, m)
    case IcxRd(a) => OnSelected(a, m)
    case CheckSeq(_, xm) => xm == XilMask(m)
    case _ => false
  }

  predicate Proper(g: Guard, m: int)
  {
    Reports(g) && Confined(g.call, m) && if g.code == 0 then g.call.CheckSeq? else Names(g.code, m)
  }

  lemma AdcOnSelected(i: int, k: int, m: int)
    requires 0 <= i < 16 && Bit(m, i) && 0 <= k < ICX_SLAVE_ADC_STEP
    ensures OnSelected(AdcBase(i) + k, m)
  {
    AdcAddressDecodes(i, k);
    assert i == 4 * (i / 4) + i % 4;
  }

  lemma {:induction false} ReadsProper(i: int, off: int, n: nat, t: Test, code: int, m: int)
    requires 0 <= i < 16 && Bit(m, i) && 0 <= off && off + n <= ICX_SLAVE_ADC_STEP
    requires Names(code, m)
    ensures forall g :: g in Reads(AdcBase(i) + off, n, t, code) ==> Proper(g, m)
  {
    if n > 0 {
      ReadsProper(i, off, n - 1, t, code, m);
      AdcOnSelected(i, off + n - 1, m);
    }
  }

  lemma {:induction false} StepsProper(i: int, d: int, m: int)
    requires 0 <= i < 16 && Bit(m, i)
    ensures forall g :: g in Steps(AdcCsr(i), d) ==> Proper(g, m)
    decreases d
  {
    if d > 0 {
      StepsProper(i, d - 1, m);
      AdcOnSelected(i, 0, m);
    }
  }

  /** One write to ADC `i`'s receiver CSR, failing with -3. */
  lemma CsrWriteProper(i: int, val: int, m: int)
    requires 0 <= i < 16 && Bit(m, i)
    ensures Proper(Fails3(IcxWr(AdcCsr(i), val)), m)
  {
    AdcOnSelected(i, 0, m);
  }

  lemma PassProper(p: Pass, i: int, m: int)
    requires 0 <= i < 16 && Bit(m, i) && (p.Scan? ==> Bit(m, 17))
    ensures forall g :: g in AdcCalls(p, i) ==> Proper(g, m)
  {
    match p
    case Frequency => FrequencyProper(i, m);
    case Prepare => PrepareProper(i, m);
    case Scan(hot) => ScanProper(hot, i, m);
    case Delay(d) => DelayProper(d, i, m);
    case MasterSlip => CsrWriteProper(i, SLAVE_ADCCSR_MBSENB, m);
    case BitSlip => CsrWriteProper(i, SLAVE_ADCCSR_BSENB, m);
    case Slipped => SlippedProper(i, m);
    case Pn23 =>
    case Errors => ReadsProper(i, ICX_SLAVE_ADC_CERR, 4, Nonzero, -70 - i, m);
    case Normal =>
  }

  lemma FrequencyProper(i: int, m: int)
    requires 0 <= i < 16 && Bit(m, i)
    ensures forall g :: g in AdcCalls(Frequency, i) ==> Proper(g, m)
  {
    AdcOnSelected(i, ICX_SLAVE_ADC_CFRQ, m);
  }

  lemma SlippedProper(i: int, m: int)
    requires 0 <= i < 16 && Bit(m, i)
    ensures forall g :: g in AdcCalls(Slipped, i) ==> Proper(g, m)
  {
    AdcOnSelected(i, ICX_SLAVE_ADC_IBS, m);
  }

  lemma PrepareProper(i: int, m: int)
    requires 0 <= i < 16 && Bit(m, i)
    ensures forall g :: g in AdcCalls(Prepare, i) ==> Proper(g, m)
  {
    CsrWriteProper(i, SLAVE_ADCCSR_DCAL + SLAVE_ADCCSR_BSRST, m);
    CsrWriteProper(i, SLAVE_ADCCSR_DRST, m);
  }

  lemma ScanProper(hot: bool, i: int, m: int)
    requires 0 <= i < 16 && Bit(m, i) && Bit(m, 17)
    ensures forall g :: g in AdcCalls(Scan(hot), i) ==> Proper(g, m)
  {
    ReadsProper(i, ICX_SLAVE_ADC_CINS, 9, if hot then Nonzero else Never, -30 - i, m);
    CsrWriteProper(i, DELAY_STEP, m);
  }

  lemma DelayProper(d: int, i: int, m: int)
    requires 0 <= i < 16 && Bit(m, i)
    ensures forall g :: g in AdcCalls(Delay(d), i) ==> Proper(g, m)
  {
    StepsProper(i, d, m);
    CsrWriteProper(i, SLAVE_ADCCSR_DRST, m);
  }

  lemma {:induction false} OverProper(m: int, p: Pass, n: nat)
    requires n <= 16 && (p.Scan? ==> Bit(m, 17))
    ensures forall g :: g in Over(m, p, n) ==> Proper(g, m)
  {
    if n > 0 {
      OverProper(m, p, n - 1);
      if Bit(m, n - 1) {
        PassProper(p, n - 1, m);
      }
    }
  }

  lemma {:induction false} RowsProper(m: int, d: int, n: nat)
    requires Bit(m, 17)
    ensures forall g :: g in Rows(m, d, n) ==> Proper(g, m)
  {
    if n > 0 {
      RowsProper(m, d, n - 1);
      OverProper(m, Scan(d - 5 <= n - 1 <= d + 5), 16);
    }
  }

  lemma {:induction false} XilinxesProper(m: int, n: nat)
    requires n <= 4
    ensures forall g :: g in Xilinxes(XilMask(m), n) ==> Proper(g, m)
  {
    if n > 0 {
      XilinxesProper(m, n - 1);
      var x := n - 1;
      if Bit(XilMask(m), x) {
        XilMaskBits(m, x);
        var a := ICX_SLAVE_STEP * x + ICX_SLAVE_CSR_OUT;
        DivUnique(a, ICX_SLAVE_STEP, x, 1);
        ModUnique(a, ICX_SLAVE_STEP, x, 1);
      }
    }
  }

  lemma ScanPhasesProper(m: int, d: int)
    ensures forall g :: g in ScanPhases(m, d) ==> Proper(g, m)
  {
    OverProper(m, Frequency, 16);
    OverProper(m, Prepare, 16);
    if Bit(m, 17) {
      RowsProper(m, d, 80);
    }
  }

  lemma CheckPhasesProper(m: int)
    ensures forall g :: g in CheckPhases(m) ==> Proper(g, m)
  {
    OverProper(m, MasterSlip, 16);
    OverProper(m, BitSlip, 16);
    OverProper(m, Slipped, 16);
    OverProper(m, Pn23, 16);
    XilinxesProper(m, 4);
    OverProper(m, Errors, 16);
    OverProper(m, Normal, 16);
  }

  /** Every call ADCAdjust makes concerns a selected ADC, and every failure is reported with a code that names it. */
  lemma AdjustProper(m: int, d: int)
    ensures forall g :: g in AdjustOps(m, d) ==> Proper(g, m)
  {
    ScanPhasesProper(m, d);
    OverProper(m, Delay(d), 16);
    CheckPhasesProper(m);
  }

  /** Whatever happens, a run has made the first `j` of its calls, in order, for some `j`; all of them when it returns 0. */
  lemma {:induction false} RunPrefix(gs: seq<Guard>, env: seq<int>, log: seq<Call>) returns (j: nat)
    ensures j <= |gs| && Run(gs, env, log).1 == log + GuardCalls(gs[..j])
    ensures Run(gs, env, log).0 == 0 ==> j == |gs|
    decreases |gs|
  {
    if gs == [] {
      j := 0;
    } else {
      var n := |gs| - 1;
      var q := gs[..n];
      j := RunPrefix(q, env, log);
      assert q[..j] == gs[..j];
      if Run(q, env, log).0 == 0 {
        assert gs[..n + 1][..n] == q;
        j := n + 1;
      }
    }
  }

  /**
   * ADCAdjust touches nothing but the selected ADCs and their Xilinxes, and
   * an error it returns is either a code that names the failing step and a
   * selected ADC, or the nonzero result of one of its ADCCheckSeq calls.
   */
  lemma AdjustResult(m: int, d: int, env: seq<int>, log: seq<Call>)
    ensures var r := Run(AdjustOps(m, d), env, log);
      (forall k :: |log| <= k < |r.1| ==> Confined(r.1[k], m)) &&
      (r.0 != 0 ==> Names(r.0, m) || exists k :: |log| <= k < |r.1| && r.1[k].CheckSeq? && r.0 == Answer(env, k))
  {
    AdjustProper(m, d);
    ProperRun(AdjustOps(m, d), m, env, log);
  }

  lemma ProperRun(gs: seq<Guard>, m: int, env: seq<int>, log: seq<Call>)
    requires forall g :: g in gs ==> Proper(g, m)
    ensures var r := Run(gs, env, log);
      (forall k :: |log| <= k < |r.1| ==> Confined(r.1[k], m)) &&
      (r.0 != 0 ==> Names(r.0, m) || exists k :: |log| <= k < |r.1| && r.1[k].CheckSeq? && r.0 == Answer(env, k))
  {
    var r := Run(gs, env, log);
    var j := RunPrefix(gs, env, log);
    forall k | |log| <= k < |r.1|
      ensures Confined(r.1[k], m)
    {
      assert r.1[k] == GuardCalls(gs[..j])[k - |log|] == gs[k - |log|].call;
      assert gs[k - |log|] in gs;
    }
    if r.0 != 0 {
      RunStops(gs, env, log);
      var k :| 0 <= k < |gs| && Stopped(gs, env, log, k);
      assert gs[k] in gs;
      if gs[k].code == 0 {
        assert r.1[|log| + k] == GuardCalls(gs[..k + 1])[k] == gs[k].call;
      }
    }
  }

  // ---------------------------------------------------------------- the delay ADCAdjust leaves

  /**
   * The IODELAY setting of the receiver with CSR `csr` after the calls `cs`:
   * the increments written since its last reset.
   */
  function Tap(cs: seq<Call>, csr: int): int
    decreases |cs|
  {
    if cs == [] then 0
    else if cs[|cs| - 1] == IcxWr(csr, SLAVE_ADCCSR_DRST) then 0
    else if cs[|cs| - 1] == IcxWr(csr, DELAY_STEP) then Tap(cs[..|cs| - 1], csr) + 1
    else Tap(cs[..|cs| - 1], csr)
  }

  /** Calls that neither reset nor step the IODELAY at `csr` leave its setting alone. */
  lemma {:induction false} TapKeeps(x: seq<Call>, y: seq<Call>, csr: int)
    requires forall k :: 0 <= k < |y| ==> y[k] != IcxWr(csr, SLAVE_ADCCSR_DRST) && y[k] != IcxWr(csr, DELAY_STEP)
    ensures Tap(x + y, csr) == Tap(x, csr)
    decreases |y|
  {
    if y == [] {
      assert x + y == x;
    } else {
      var n := |y| - 1;
      assert (x + y)[..|x + y| - 1] == x + y[..n];
      TapKeeps(x, y[..n], csr);
    }
  }

  lemma GuardCallsAppend(a: seq<Guard>, b: seq<Guard>)
    ensures GuardCalls(a + b) == GuardCalls(a) + GuardCalls(b)
  {
    assert forall k :: 0 <= k < |a + b| ==> GuardCalls(a + b)[k] == (GuardCalls(a) + GuardCalls(b))[k];
  }

  /** Steps of the IODELAY at `csr` add to its setting. */
  lemma {:induction false} TapSteps(x: seq<Call>, y: seq<Call>, csr: int)
    requires forall k :: 0 <= k < |y| ==> y[k] == IcxWr(csr, DELAY_STEP)
    ensures Tap(x + y, csr) == Tap(x, csr) + |y|
    decreases |y|
  {
    if y == [] {
      assert x + y == x;
    } else {
      var n := |y| - 1;
      assert (x + y)[..|x + y| - 1] == x + y[..n];
      TapSteps(x, y[..n], csr);
    }
  }

  /** After a reset and `d` steps, the setting is `d` (0 for a negative `d`). */
  lemma TapAfterReset(x: seq<Call>, csr: int, d: int)
    ensures Tap(x + GuardCalls([Fails3(IcxWr(csr, SLAVE_ADCCSR_DRST))] + Steps(csr, d)), csr) == if d > 0 then d else 0
  {
    var r := [Fails3(IcxWr(csr, SLAVE_ADCCSR_DRST))];
    var st := Steps(csr, d);
    GuardCallsAppend(r, st);
    var y := GuardCalls(st);
    assert GuardCalls(r) == [IcxWr(csr, SLAVE_ADCCSR_DRST)];
    assert x + GuardCalls(r + st) == (x + [IcxWr(csr, SLAVE_ADCCSR_DRST)]) + y;
    assert Tap(x + [IcxWr(csr, SLAVE_ADCCSR_DRST)], csr) == 0;
    TapSteps(x + [IcxWr(csr, SLAVE_ADCCSR_DRST)], y, csr);
  }

  /** Receivers of distinct ADCs have distinct CSRs. */
  lemma AdcCsrDistinct(i: int, j: int)
    requires 0 <= i < 16 && 0 <= j < 16 && i != j
    ensures AdcCsr(i) != AdcCsr(j)
  {
    AdcAddressDecodes(i, 0);
    AdcAddressDecodes(j, 0);
  }

  /** The delay pass over the first `n` ADCs leaves ADC `i`'s receiver at `d` steps. */
  lemma {:induction false} DelayTaps(m: int, d: int, n: nat, i: int, x: seq<Call>)
    requires 0 <= i < n <= 16 && Bit(m, i)
    ensures Tap(x + GuardCalls(Over(m, Delay(d), n)), AdcCsr(i)) == if d > 0 then d else 0
  {
    var y := x + GuardCalls(Over(m, Delay(d), n - 1));
    OverStep(m, Delay(d), n);
    if Bit(m, n - 1) {
      Assoc(x, GuardCalls(Over(m, Delay(d), n - 1)), GuardCalls(AdcCalls(Delay(d), n - 1)));
      if n - 1 == i {
        DelayHere(d, i, y);
      } else {
        DelayTaps(m, d, n - 1, i, x);
        DelayElsewhere(d, i, n - 1, y);
      }
    } else {
      assert GuardCalls([]) == [];
      assert x + GuardCalls(Over(m, Delay(d), n)) == y;
      DelayTaps(m, d, n - 1, i, x);
    }
  }

  /** The calls of a pass over the first `n` ADCs extend those over the first `n - 1`. */
  lemma OverStep(m: int, p: Pass, n: nat)
    requires 0 < n
    ensures GuardCalls(Over(m, p, n)) == GuardCalls(Over(m, p, n - 1)) + GuardCalls(if Bit(m, n - 1) then AdcCalls(p, n - 1) else [])
  {
    GuardCallsAppend(Over(m, p, n - 1), if Bit(m, n - 1) then AdcCalls(p, n - 1) else []);
  }

  lemma Assoc(x: seq<Call>, a: seq<Call>, c: seq<Call>)
    ensures x + (a + c) == x + a + c
  {
  }

  /** The delay pass for ADC `j` leaves the receiver of any other ADC `i` alone. */
  lemma DelayElsewhere(d: int, i: int, j: int, y: seq<Call>)
    requires 0 <= i < 16 && 0 <= j < 16 && i != j
    ensures Tap(y + GuardCalls(AdcCalls(Delay(d), j)), AdcCsr(i)) == Tap(y, AdcCsr(i))
  {
    AdcCsrDistinct(i, j);
    DelayCallsAt(d, j);
    TapKeeps(y, GuardCalls(AdcCalls(Delay(d), j)), AdcCsr(i));
  }

  lemma DelayHere(d: int, i: int, y: seq<Call>)
    ensures Tap(y + GuardCalls(AdcCalls(Delay(d), i)), AdcCsr(i)) == if d > 0 then d else 0
  {
    assert AdcCalls(Delay(d), i) == [Fails3(IcxWr(AdcCsr(i), SLAVE_ADCCSR_DRST))] + Steps(AdcCsr(i), d);
    TapAfterReset(y, AdcCsr(i), d);
  }

  /** The delay pass for ADC `j` writes nothing but `j`'s receiver CSR. */
  lemma DelayCallsAt(d: int, j: int)
    ensures forall k :: 0 <= k < |GuardCalls(AdcCalls(Delay(d), j))| ==>
      GuardCalls(AdcCalls(Delay(d), j))[k].IcxWr? && GuardCalls(AdcCalls(Delay(d), j))[k].addr == AdcCsr(j)
  {
    var last := AdcCalls(Delay(d), j);
    assert last == [Fails3(IcxWr(AdcCsr(j), SLAVE_ADCCSR_DRST))] + Steps(AdcCsr(j), d);
    forall k | 0 <= k < |last|
      ensures last[k].call.IcxWr? && last[k].call.addr == AdcCsr(j)
    {
      if k > 0 {
        assert last[k] == Steps(AdcCsr(j), d)[k - 1];
      }
    }
  }

  /** A guard whose call neither resets nor steps any IODELAY. */
  predicate Quiet(g: Guard)
  {
    !(g.call.IcxWr? && (g.call.val == SLAVE_ADCCSR_DRST || g.call.val == DELAY_STEP))
  }

  lemma {:induction false} OverQuiet(m: int, p: Pass, n: nat)
    requires p in {MasterSlip, BitSlip, Slipped, Pn23, Errors, Normal}
    ensures forall g :: g in Over(m, p, n) ==> Quiet(g)
  {
    if n > 0 {
      OverQuiet(m, p, n - 1);
      if p == Errors {
        ReadsQuiet(AdcBase(n - 1) + ICX_SLAVE_ADC_CERR, 4, Nonzero, -70 - (n - 1));
      }
    }
  }

  lemma {:induction false} ReadsQuiet(base: int, n: nat, t: Test, code: int)
    ensures forall g :: g in Reads(base, n, t, code) ==> Quiet(g)
  {
    if n > 0 {
      ReadsQuiet(base, n - 1, t, code);
    }
  }

  lemma {:induction false} XilinxesQuiet(xm: int, n: nat)
    ensures forall g :: g in Xilinxes(xm, n) ==> Quiet(g)
  {
    if n > 0 {
      XilinxesQuiet(xm, n - 1);
    }
  }

  lemma CheckPhasesQuiet(m: int)
    ensures forall g :: g in CheckPhases(m) ==> Quiet(g)
  {
    OverQuiet(m, MasterSlip, 16);
    OverQuiet(m, BitSlip, 16);
    OverQuiet(m, Slipped, 16);
    OverQuiet(m, Pn23, 16);
    XilinxesQuiet(XilMask(m), 4);
    OverQuiet(m, Errors, 16);
    OverQuiet(m, Normal, 16);
  }

  /** A successful ADCAdjust has made all its calls: the first phases, the delay pass, the checks. */
  lemma AdjustLog(m: int, d: int, env: seq<int>, log: seq<Call>)
    requires Run(AdjustOps(m, d), env, log).0 == 0
    ensures Run(AdjustOps(m, d), env, log).1 ==
      log + GuardCalls(ScanPhases(m, d)) + GuardCalls(ForAdcs(m, Delay(d))) + GuardCalls(CheckPhases(m))
  {
    AdjustProper(m, d);
    RunClean3(ScanPhases(m, d), ForAdcs(m, Delay(d)), CheckPhases(m), env, log);
  }

  lemma RunMadeAll(gs: seq<Guard>, env: seq<int>, log: seq<Call>)
    requires forall g :: g in gs ==> Reports(g)
    requires Run(gs, env, log).0 == 0
    ensures Run(gs, env, log).1 == log + GuardCalls(gs)
  {
    RunClean(gs, env, log);
  }

  lemma {:induction false} RunClean3(a: seq<Guard>, b: seq<Guard>, c: seq<Guard>, env: seq<int>, log: seq<Call>)
    requires forall g :: g in a + b + c ==> Reports(g)
    requires Run(a + b + c, env, log).0 == 0
    ensures Run(a + b + c, env, log).1 == log + GuardCalls(a) + GuardCalls(b) + GuardCalls(c)
  {
    var abc := a + b + c;
    RunMadeAll(abc, env, log);
    GuardCalls3(a, b, c);
  }

  lemma GuardCalls3(a: seq<Guard>, b: seq<Guard>, c: seq<Guard>)
    ensures GuardCalls(a + b + c) == GuardCalls(a) + GuardCalls(b) + GuardCalls(c)
  {
    GuardCallsAppend(a + b, c);
    GuardCallsAppend(a, b);
  }

  /**
   * When ADCAdjust succeeds, every selected ADC's receiver is left exactly
   * the configured number of IODELAY steps after its last reset, whether or
   * not the delay scan ran.
   */
  lemma AdjustSetsDelay(m: int, d: int, env: seq<int>, log: seq<Call>, i: int)
    requires 0 <= i < 16 && Bit(m, i)
    requires Run(AdjustOps(m, d), env, log).0 == 0
    ensures Tap(Run(AdjustOps(m, d), env, log).1, AdcCsr(i)) == if d > 0 then d else 0
  {
    var b := ForAdcs(m, Delay(d));
    var c := CheckPhases(m);
    var x := log + GuardCalls(ScanPhases(m, d));
    AdjustLog(m, d, env, log);
    assert Run(AdjustOps(m, d), env, log).1 == (x + GuardCalls(b)) + GuardCalls(c);
    DelayTaps(m, d, 16, i, x);
    CheckPhasesQuiet(m);
    forall k | 0 <= k < |GuardCalls(c)|
      ensures GuardCalls(c)[k] != IcxWr(AdcCsr(i), SLAVE_ADCCSR_DRST) && GuardCalls(c)[k] != IcxWr(AdcCsr(i), DELAY_STEP)
    {
      assert c[k] in c;
    }
    TapKeeps(x + GuardCalls(b), GuardCalls(c), AdcCsr(i));
  }

  // ---------------------------------------------------------------- ConfigureMasterClock

  /** The CDCUN1208LP input control word: the divider `div & 3` in bits 5:4 and the input (IN2 when `sel`). */
  function InputWord(sel: int, div: int): int
  {
    And(div, 3) * 16 + if sel != 0 then CDCUN_INPUT_MUX_IN2 else CDCUN_INPUT_MUX_IN1
  }

  /** The output control word: edge rate 1 medium, 2 slow, anything else fast; differential. */
  function OutputWord(erc: int): int
  {
    (if erc == 1 then CDCUN_OUT_ERC_MEDIUM else if erc == 2 then CDCUN_OUT_ERC_SLOW else CDCUN_OUT_ERC_FAST)
    + CDCUN_OUT_DIFF_ON
  }

  /** The divider and the input read back from the input word. */
  lemma InputWordFields(sel: int, div: int)
    ensures InputWord(sel, div) / 16 == And(div, 3) && And(div, 3) == div % 4
    ensures InputWord(sel, div) % 16 == if sel != 0 then 1 else 0
  {
    AndLowBits(div, 2);
    assert Pow2(2) == 4;
  }

  /**
   * The calls of ConfigureMasterClock: the clock held in reset, the input,
   * outputs 0-2 disabled, outputs 3-7 set, the clock released; then every
   * register read back.  A read-back of an output that differs is read
   * once more for the error message.
   */
  function MasterTicks(sel: int, div: int, erc: int): seq<Tick>
  {
    var w := InputWord(sel, div);
    var s := OutputWord(erc);
    [Count(I2cWr(CDCUN_CTRL_ADDR, CDCUN_CTRL_RESET)), Count(I2cWr(CDCUN_INPUT_ADDR, w))]
    + seq(3, i => Count(I2cWr(i, CDCUN_OUT_DISABLE)))
    + seq(5, i => Count(I2cWr(i + 3, s)))
    + [Count(I2cWr(CDCUN_CTRL_ADDR, 0)), Count(I2cRd(CDCUN_CTRL_ADDR)), Tick(I2cRd(CDCUN_INPUT_ADDR), Differs(w), false)]
    + seq(3, i => Tick(I2cRd(i), Differs(CDCUN_OUT_DISABLE), true))
    + seq(5, i => Tick(I2cRd(i + 3), Differs(s), true))
  }

  /**
   * ConfigureMasterClock counts no error exactly when all eleven writes
   * succeed, the control register reads back 0 and every other register
   * reads back the value written; it counts at most 21.
   */
  lemma MasterClockClean(sel: int, div: int, erc: int, env: seq<int>, log: seq<Call>)
    ensures var r := Tally(MasterTicks(sel, div, erc), env, log); var n := |log|;
      0 <= r.0 <= 21 &&
      (r.0 == 0 <==>
        (forall k :: n <= k < n + 11 ==> Answer(env, k) == 0) &&
        Answer(env, n + 11) == 0 && Answer(env, n + 12) == InputWord(sel, div) &&
        (forall k :: n + 13 <= k < n + 16 ==> Answer(env, k) == CDCUN_OUT_DISABLE) &&
        (forall k :: n + 16 <= k < n + 21 ==> Answer(env, k) == OutputWord(erc)))
  {
    var ts := MasterTicks(sel, div, erc);
    var n := |log|;
    MasterTests(sel, div, erc);
    TallyClean(ts, env, log);
    TallyBounds(ts, env, log);
    var good := forall k :: 0 <= k < 21 ==> !Bad(ts[k].test, Answer(env, n + k));
    if good {
      assert forall k :: n <= k < n + 21 ==> !Bad(ts[k - n].test, Answer(env, k));
    } else {
      var k :| 0 <= k < 21 && Bad(ts[k].test, Answer(env, n + k));
      assert Answer(env, n + k) == Answer(env, n + k);
    }
  }

  /** How ConfigureMasterClock judges each of its 21 calls. */
  lemma MasterTests(sel: int, div: int, erc: int)
    ensures var ts := MasterTicks(sel, div, erc);
      |ts| == 21 &&
      (forall k :: 0 <= k < 12 ==> ts[k].test == Nonzero) &&
      ts[12].test == Differs(InputWord(sel, div)) &&
      (forall k :: 13 <= k < 16 ==> ts[k].test == Differs(CDCUN_OUT_DISABLE)) &&
      (forall k :: 16 <= k < 21 ==> ts[k].test == Differs(OutputWord(erc)))
  {
    var w := InputWord(sel, div);
    var s := OutputWord(erc);
    var p1 := [Count(I2cWr(CDCUN_CTRL_ADDR, CDCUN_CTRL_RESET)), Count(I2cWr(CDCUN_INPUT_ADDR, w))];
    var p2 := seq(3, i => Count(I2cWr(i, CDCUN_OUT_DISABLE)));
    var p3 := seq(5, i => Count(I2cWr(i + 3, s)));
    var p4 := [Count(I2cWr(CDCUN_CTRL_ADDR, 0)), Count(I2cRd(CDCUN_CTRL_ADDR)), Tick(I2cRd(CDCUN_INPUT_ADDR), Differs(w), false)];
    var p5 := seq(3, i => Tick(I2cRd(i), Differs(CDCUN_OUT_DISABLE), true));
    var p6 := seq(5, i => Tick(I2cRd(i + 3), Differs(s), true));
    var ts := MasterTicks(sel, div, erc);
    assert ts == p1 + p2 + p3 + p4 + p5 + p6;
    forall k | 0 <= k < 21
      ensures ts[k].test == if k < 12 then Nonzero else if k == 12 then Differs(w)
                            else if k < 16 then Differs(CDCUN_OUT_DISABLE) else Differs(s)
    {
      if k < 2 {
        assert ts[k] == p1[k];
      } else if k < 5 {
        assert ts[k] == p2[k - 2];
      } else if k < 10 {
        assert ts[k] == p3[k - 5];
      } else if k < 13 {
        assert ts[k] == p4[k - 10];
      } else if k < 16 {
        assert ts[k] == p5[k - 13];
      } else {
        assert ts[k] == p6[k - 16];
      }
    }
  }

  // ---------------------------------------------------------------- ConfigureSlaveXilinx

  /** A configuration with the array sizes of the source's structure. */
  predicate Shaped(c: Conf)
  {
    |c.trigCoef| == 64 && |c.mainTrigMask| == 4 && |c.selfTrigMask| == 4 && |c.trigSumMask| == 4 && |c.invertMask| == 4
  }

  /**
   * The calls of ConfigureSlaveXilinx(num): Xilinx `num`'s 16 trigger
   * coefficients, its masks, thresholds, prescale and windows, and its CSR
   * with trigger history enabled when bit `num` of TrigHistMask is set.
   */
  function XilinxTicks(c: Conf, num: int): seq<Tick>
    requires Shaped(c) && 0 <= num < 4
  {
    CoefTicks(c, num) + SettingTicks(c, num)
  }

  /** The trigger coefficient writes of Xilinx `num`. */
  function CoefTicks(c: Conf, num: int): seq<Tick>
    requires Shaped(c) && 0 <= num < 4
  {
    var x := ICX_SLAVE_STEP * num;
    seq(16, i requires 0 <= i < 16 => Count(IcxWr(x + ICX_SLAVE_COEF + i, c.trigCoef[16 * num + i])))
  }

  /** The masks, thresholds, windows and CSR of Xilinx `num`. */
  function SettingTicks(c: Conf, num: int): seq<Tick>
    requires Shaped(c) && 0 <= num < 4
  {
    var x := ICX_SLAVE_STEP * num;
    [Count(IcxWr(x + ICX_SLAVE_MTMASK, c.mainTrigMask[num])),
       Count(IcxWr(x + ICX_SLAVE_STMASK, c.selfTrigMask[num])),
       Count(IcxWr(x + ICX_SLAVE_SUMASK, c.trigSumMask[num])),
       Count(IcxWr(x + ICX_SLAVE_INVMASK, c.invertMask[num])),
       Count(IcxWr(x + ICX_SLAVE_MTTHR, c.zeroSupThreshold)),
       Count(IcxWr(x + ICX_SLAVE_STTHR, c.selfTrigThreshold)),
       Count(IcxWr(x + ICX_SLAVE_SUTHR, c.masterTrigThreshold)),
       Count(IcxWr(x + ICX_SLAVE_STPRC, c.selfTriggerPrescale)),
       Count(IcxWr(x + ICX_SLAVE_WINLEN, c.winLen)),
       Count(IcxWr(x + ICX_SLAVE_MTWINBEG, c.trigWinBegin)),
       Count(IcxWr(x + ICX_SLAVE_STWINBEG, c.selfWinBegin)),
       Count(IcxWr(x + ICX_SLAVE_SUWINBEG, c.sumWinBegin)),
       Count(IcxWr(x + ICX_SLAVE_SUDELAY, c.sumDelay)),
       Count(IcxWr(x + ICX_SLAVE_MTZBEG, c.zsWinBegin)),
       Count(IcxWr(x + ICX_SLAVE_MTZEND, c.zsWinEnd)),
       Count(IcxWr(x + ICX_SLAVE_CSR_OUT, if Bit(c.trigHistMask, num) then SLAVE_CSR_HISTENABLE else 0))]
  }

  /**
   * ConfigureSlaveXilinx writes 32 distinct registers, all of Xilinx `num`,
   * each once; the coefficient `i` goes to COEF + `i`; the CSR gets trigger
   * history exactly when bit `num` of TrigHistMask is set.  It counts one
   * error per failed write: none exactly when every write succeeds.
   */
  lemma XilinxWrites(c: Conf, num: int, env: seq<int>, log: seq<Call>)
    requires Shaped(c) && 0 <= num < 4
    ensures var ts := XilinxTicks(c, num);
      |ts| == 32 &&
      (forall k :: 0 <= k < 32 ==> ts[k].call.IcxWr? && ts[k].call.addr / ICX_SLAVE_STEP == num) &&
      (forall k, l :: 0 <= k < l < 32 ==> ts[k].call.addr != ts[l].call.addr) &&
      (forall i :: 0 <= i < 16 ==> ts[i].call == IcxWr(ICX_SLAVE_STEP * num + ICX_SLAVE_COEF + i, c.trigCoef[16 * num + i])) &&
      ts[31].call == IcxWr(ICX_SLAVE_STEP * num + ICX_SLAVE_CSR_OUT, if Bit(c.trigHistMask, num) then SLAVE_CSR_HISTENABLE else 0)
    ensures var r := Tally(XilinxTicks(c, num), env, log);
      0 <= r.0 <= 32 && (r.0 == 0 <==> forall k :: |log| <= k < |log| + 32 ==> Answer(env, k) == 0)
  {
    var ts := XilinxTicks(c, num);
    var x := ICX_SLAVE_STEP * num;
    var n := |log|;
    XilinxCalls(c, num);
    forall k | 0 <= k < 32
      ensures ts[k].call.addr / ICX_SLAVE_STEP == num
    {
      DivUnique(ts[k].call.addr, ICX_SLAVE_STEP, num, Offset(k));
    }
    TallyClean(ts, env, log);
    TallyBounds(ts, env, log);
    if forall k :: 0 <= k < 32 ==> !Bad(ts[k].test, Answer(env, n + k)) {
      assert forall k :: n <= k < n + 32 ==> !Bad(ts[k - n].test, Answer(env, k));
    }
  }

  /** Every call of ConfigureSlaveXilinx is a counted write to Xilinx `num` at offset Offset(k). */
  lemma XilinxCalls(c: Conf, num: int)
    requires Shaped(c) && 0 <= num < 4
    ensures var ts := XilinxTicks(c, num);
      |ts| == 32 &&
      (forall k :: 0 <= k < 32 ==>
        ts[k].test == Nonzero && ts[k].call.IcxWr? && ts[k].call.addr == ICX_SLAVE_STEP * num + Offset(k)) &&
      (forall i :: 0 <= i < 16 ==> ts[i].call == IcxWr(ICX_SLAVE_STEP * num + ICX_SLAVE_COEF + i, c.trigCoef[16 * num + i])) &&
      ts[31].call == IcxWr(ICX_SLAVE_STEP * num + ICX_SLAVE_CSR_OUT, if Bit(c.trigHistMask, num) then SLAVE_CSR_HISTENABLE else 0)
  {
    var ts := XilinxTicks(c, num);
    var p1 := CoefTicks(c, num);
    var p2 := SettingTicks(c, num);
    forall k | 0 <= k < 16
      ensures ts[k] == Count(IcxWr(ICX_SLAVE_STEP * num + ICX_SLAVE_COEF + k, c.trigCoef[16 * num + k]))
    {
      assert ts[k] == p1[k];
    }
    forall k | 16 <= k < 32
      ensures ts[k].test == Nonzero && ts[k].call.IcxWr? && ts[k].call.addr == ICX_SLAVE_STEP * num + Offset(k)
    {
      assert ts[k] == p2[k - 16];
    }
  }

  /** The register offset of ConfigureSlaveXilinx's `k`-th write. */
  function Offset(k: int): int
  {
    if k < 16 then ICX_SLAVE_COEF + k else if k < 31 then ICX_SLAVE_MTMASK + k - 16 else ICX_SLAVE_CSR_OUT
  }

  // ---------------------------------------------------------------- Init

  /**
   * The CDCUN input Init selects as written: IN2 when bit 2 of
   * MasterClockDiv is set.  ReadConfig keeps only bits 1:0 of that setting.
   */
  function ClockSelectAsWritten(c: Conf): int
  {
    if Bit(c.masterClockDiv, 2) then 1 else 0
  }

  /**
   * The CDCUN input the clock multiplexer setting needs: IN2 for modes 4-7
   * of MasterClockMux (CSR[10:8]), IN1 for modes 0-3.
   */
  function ClockSelect(c: Conf): int
  {
    if Bit(c.masterClockMux, 2) then 1 else 0
  }

  lemma Pow2Small()
    ensures Pow2(2) == 4 && Pow2(16) == 0x1_0000 && Pow2(17) == 0x2_0000
  {
    assert Pow2(2) == 4;
    assert Pow2(16) == 0x1_0000 by {
      assert Pow2(8) == 0x100;
      assert Pow2(12) == 0x1000;
    }
  }

  /** For every configuration ReadConfig can produce, Init as written selects IN1. */
  lemma ClockSelectAsWrittenIsIn1(c: Conf)
    requires InRange(c)
    ensures ClockSelectAsWritten(c) == 0
  {
    Pow2Small();
    assert c.masterClockDiv / 4 == 0;
  }

  /** The corrected selection is IN2 exactly for clock modes 4-7. */
  lemma ClockSelectFollowsMux(c: Conf)
    requires InRange(c)
    ensures ClockSelect(c) == (if 4 <= c.masterClockMux then 1 else 0)
  {
    Pow2Small();
    assert c.masterClockMux / 4 == (if 4 <= c.masterClockMux then 1 else 0);
  }

  /** Clock mode 4 needs IN2, which Init as written never selects. */
  lemma ClockSelectMissesIn2()
    ensures var c := Initial().(masterClockMux := 4);
      InRange(c) && ClockSelect(c) == 1 && ClockSelectAsWritten(c) == 0
  {
    var c := Initial().(masterClockMux := 4);
    InitialInRange();
    ClockSelectFollowsMux(c);
    ClockSelectAsWrittenIsIn1(c);
  }

  /** The same ADC register write to each of the 16 ADCs. */
  function AdcWrites(reg: int, val: int): (ts: seq<Tick>)
    ensures |ts| == 16 && forall i :: 0 <= i < 16 ==> ts[i] == Count(AdcWr(i, reg, val))
  {
    seq(16, i => Count(AdcWr(i, reg, val)))
  }

  /** How many of the `n` answers from the `from`-th on are not 0. */
  function Failures(env: seq<int>, from: nat, n: nat): (f: nat)
    ensures f <= n
  {
    if n == 0 then 0 else Failures(env, from, n - 1) + (if Answer(env, from + n - 1) != 0 then 1 else 0)
  }

  /**
   * Counted calls that display nothing are all made, one log entry each,
   * whatever they return, and each one that fails counts one error.
   */
  lemma {:induction false} PlainTally(ts: seq<Tick>, env: seq<int>, log: seq<Call>)
    requires forall k :: 0 <= k < |ts| ==> ts[k] == Count(ts[k].call)
    ensures Tally(ts, env, log) == (Failures(env, |log|, |ts|), log + TickCalls(ts))
    decreases |ts|
  {
    if ts == [] {
      assert log + [] == log;
    } else {
      var n := |ts| - 1;
      assert forall k :: 0 <= k < n ==> ts[..n][k] == ts[k];
      PlainTally(ts[..n], env, log);
      assert |Tally(ts[..n], env, log).1| == |log| + n;
      assert ts[n] == Count(ts[n].call);
      assert (log + TickCalls(ts[..n])) + [ts[n].call] == log + TickCalls(ts);
    }
  }

  /**
   * One of Init's loops over the ADCs: ADC 0 to 15 each get the register
   * write in turn, whatever the earlier ones returned, and each write that
   * fails counts one error.
   */
  lemma AdcWritesTally(reg: int, val: int, env: seq<int>, log: seq<Call>)
    ensures Tally(AdcWrites(reg, val), env, log) == (Failures(env, |log|, 16), log + seq(16, i => AdcWr(i, reg, val)))
  {
    var ts := AdcWrites(reg, val);
    PlainTally(ts, env, log);
    assert TickCalls(ts) == seq(16, i => AdcWr(i, reg, val));
  }

  /** The I2C master of slave Xilinx `x` gets the prescaler and is enabled; then its Si5338 is loaded. */
  function SlaveSetup(x: int): seq<Tick>
  {
    var b := ICX_SLAVE_STEP * x;
    [Count(IcxWr(b + ICX_SLAVE_I2C_PRCL, I2C_PRESC % 0x100)),
     Count(IcxWr(b + ICX_SLAVE_I2C_PRCH, I2C_PRESC / 0x100 % 0x100)),
     Count(IcxWr(b + ICX_SLAVE_I2C_CTR, I2C_CTR_CORE_ENABLE)),
     Count(SlaveClock(x))]
  }

  function SlaveSetups(n: nat): seq<Tick>
  {
    if n == 0 then [] else SlaveSetups(n - 1) + SlaveSetup(n - 1)
  }

  /**
   * The counted calls of Init between the main-board registers and ADCAdjust:
   * the offset DAC, ADC power-down, the slave clocks, then ADC power-up,
   * power reset on and off, software reset and offset-binary output.
   */
  function PrepareTicks(c: Conf): seq<Tick>
  {
    [Count(DacWr(c.dac))] + AdcWrites(ADC_REG_PWR, ADC_PWR_DOWN) + SlaveSetups(4)
    + AdcWrites(ADC_REG_PWR, 0) + AdcWrites(ADC_REG_PWR, ADC_PWR_RESET) + AdcWrites(ADC_REG_PWR, 0)
    + AdcWrites(ADC_REG_CFG, ADC_CFG_RESET) + AdcWrites(ADC_REG_OUTPUT, 0)
  }

  /** ConfigureSlaveXilinx on Xilinxes 0 .. n-1, in turn. */
  function SlaveXilinxes(c: Conf, n: nat): seq<Tick>
    requires Shaped(c) && n <= 4
  {
    if n == 0 then [] else SlaveXilinxes(c, n - 1) + XilinxTicks(c, n - 1)
  }

  /** The mask ADCAdjust takes by default: every ADC, no display. */
  const ALL_ADCS := 0xFFFF

  /**
   * The error count and the call log of Init: the master clock, the counted
   * preparation, one error for a failed ADCAdjust over all ADCs, and the
   * errors of the four slave Xilinxes' configuration.
   */
  function InitRun(c: Conf, m: int, env: seq<int>, log: seq<Call>): (int, seq<Call>)
    requires Shaped(c)
  {
    var f := InitFront(c, env, log);
    var k := InitBack(c, m, env, f.1);
    (f.0 + k.0, k.1)
  }

  /** The first half of Init: the master clock, then the counted preparation. */
  function InitFront(c: Conf, env: seq<int>, log: seq<Call>): (int, seq<Call>)
  {
    var a := Tally(MasterTicks(ClockSelect(c), c.masterClockDiv, c.masterClockErc), env, log);
    var b := Tally(PrepareTicks(c), env, a.1);
    (a.0 + b.0, b.1)
  }

  /** The second half of Init: ADCAdjust over all ADCs, then the four slave Xilinxes. */
  function InitBack(c: Conf, m: int, env: seq<int>, log: seq<Call>): (int, seq<Call>)
    requires Shaped(c)
  {
    var j := Run(AdjustOps(m, c.ioDelay), env, log);
    var z := Tally(SlaveXilinxes(c, 4), env, j.1);
    ((if j.0 != 0 then 1 else 0) + z.0, z.1)
  }

  /** Bits 0 .. n-1 of 2^n - 1 are set. */
  lemma {:induction false} LowOnes(n: nat, k: nat)
    requires k < n
    ensures Bit(Pow2(n) - 1, k)
    decreases k
  {
    BitShift(Pow2(n) - 1, if k == 0 then 0 else k - 1);
    if k > 0 {
      assert (Pow2(n) - 1) / 2 == Pow2(n - 1) - 1;
      LowOnes(n - 1, k - 1);
    }
  }

  /** The default mask selects every ADC and neither displays nor scans. */
  lemma AllAdcsBits(i: int)
    requires 0 <= i < 16
    ensures Bit(ALL_ADCS, i) && !Bit(ALL_ADCS, 16) && !Bit(ALL_ADCS, 17)
  {
    Pow2Small();
    LowOnes(16, i);
  }

  /** A call of the slave Xilinx itself, not of one of its ADC receivers. */
  predicate OwnRegister(t: Tick)
  {
    t.call.IcxWr? && 0 <= t.call.addr % ICX_SLAVE_STEP < ICX_SLAVE_ADC
  }

  /** ConfigureSlaveXilinx writes only the slave Xilinxes' own registers. */
  lemma {:induction false} SlaveXilinxesOwn(c: Conf, n: nat)
    requires Shaped(c) && n <= 4
    ensures forall k :: 0 <= k < |SlaveXilinxes(c, n)| ==> OwnRegister(SlaveXilinxes(c, n)[k])
  {
    if n > 0 {
      SlaveXilinxesOwn(c, n - 1);
      var a := SlaveXilinxes(c, n - 1);
      var b := XilinxTicks(c, n - 1);
      XilinxCalls(c, n - 1);
      forall k | 0 <= k < |b|
        ensures OwnRegister(b[k])
      {
        ModUnique(b[k].call.addr, ICX_SLAVE_STEP, n - 1, Offset(k));
      }
      assert forall k :: 0 <= k < |a + b| ==> (a + b)[k] == if k < |a| then a[k] else b[k - |a|];
    }
  }

  /**
   * Init reports no error exactly when ConfigureMasterClock, every counted
   * call of the preparation, ADCAdjust and the four ConfigureSlaveXilinx all
   * succeed; it has then made all their calls, in order.
   */
  lemma InitClean(c: Conf, m: int, env: seq<int>, log: seq<Call>)
    requires Shaped(c)
    ensures var a := Tally(MasterTicks(ClockSelect(c), c.masterClockDiv, c.masterClockErc), env, log);
      var b := Tally(PrepareTicks(c), env, a.1);
      var j := Run(AdjustOps(m, c.ioDelay), env, b.1);
      var z := Tally(SlaveXilinxes(c, 4), env, j.1);
      var r := InitRun(c, m, env, log);
      r.0 >= 0 &&
      (r.0 == 0 <==> a.0 == 0 && b.0 == 0 && j.0 == 0 && z.0 == 0) &&
      (r.0 == 0 ==> r.1 == log + TickCalls(MasterTicks(ClockSelect(c), c.masterClockDiv, c.masterClockErc))
                            + TickCalls(PrepareTicks(c)) + GuardCalls(AdjustOps(m, c.ioDelay))
                            + TickCalls(SlaveXilinxes(c, 4)))
  {
    var ms := MasterTicks(ClockSelect(c), c.masterClockDiv, c.masterClockErc);
    var a := Tally(ms, env, log);
    var b := Tally(PrepareTicks(c), env, a.1);
    var j := Run(AdjustOps(m, c.ioDelay), env, b.1);
    var z := Tally(SlaveXilinxes(c, 4), env, j.1);
    TallyBounds(ms, env, log);
    TallyBounds(PrepareTicks(c), env, a.1);
    TallyBounds(SlaveXilinxes(c, 4), env, j.1);
    if InitRun(c, m, env, log).0 == 0 {
      TallyClean(ms, env, log);
      TallyClean(PrepareTicks(c), env, a.1);
      AdjustProper(m, c.ioDelay);
      RunMadeAll(AdjustOps(m, c.ioDelay), env, b.1);
      TallyClean(SlaveXilinxes(c, 4), env, j.1);
    }
  }

  /** Calls to the slave Xilinxes' own registers leave every ADC receiver's IODELAY alone. */
  lemma OwnKeepsTap(x: seq<Call>, zs: seq<Tick>, i: int)
    requires 0 <= i < 16
    requires forall k :: 0 <= k < |zs| ==> OwnRegister(zs[k])
    ensures Tap(x + TickCalls(zs), AdcCsr(i)) == Tap(x, AdcCsr(i))
  {
    var y := TickCalls(zs);
    ModUnique(AdcCsr(i), ICX_SLAVE_STEP, i / 4, ICX_SLAVE_ADC + ICX_SLAVE_ADC_STEP * (i % 4));
    assert forall k :: 0 <= k < |y| ==> y[k] != IcxWr(AdcCsr(i), SLAVE_ADCCSR_DRST) && y[k] != IcxWr(AdcCsr(i), DELAY_STEP);
    TapKeeps(x, y, AdcCsr(i));
  }

  /**
   * When Init reports no error, every ADC's receiver is left with the
   * configured IODelay: ADCAdjust sets it and the slave configuration that
   * follows does not touch it.
   */
  lemma InitSetsDelay(c: Conf, m: int, env: seq<int>, log: seq<Call>, i: int)
    requires Shaped(c) && 0 <= i < 16 && Bit(m, i)
    requires InitRun(c, m, env, log).0 == 0
    ensures Tap(InitRun(c, m, env, log).1, AdcCsr(i)) == if c.ioDelay > 0 then c.ioDelay else 0
  {
    var a := Tally(MasterTicks(ClockSelect(c), c.masterClockDiv, c.masterClockErc), env, log);
    var b := Tally(PrepareTicks(c), env, a.1);
    var j := Run(AdjustOps(m, c.ioDelay), env, b.1);
    var zs := SlaveXilinxes(c, 4);
    InitZero(c, m, env, log);
    AdjustSetsDelay(m, c.ioDelay, env, b.1, i);
    TallyClean(zs, env, j.1);
    SlaveXilinxesOwn(c, 4);
    OwnKeepsTap(j.1, zs, i);
  }

  /** Init counts no error only when none of its parts fails. */
  lemma InitZero(c: Conf, m: int, env: seq<int>, log: seq<Call>)
    requires Shaped(c)
    requires InitRun(c, m, env, log).0 == 0
    ensures var a := Tally(MasterTicks(ClockSelect(c), c.masterClockDiv, c.masterClockErc), env, log);
      var b := Tally(PrepareTicks(c), env, a.1);
      var j := Run(AdjustOps(m, c.ioDelay), env, b.1);
      a.0 == 0 && b.0 == 0 && j.0 == 0 && Tally(SlaveXilinxes(c, 4), env, j.1).0 == 0
  {
    var ms := MasterTicks(ClockSelect(c), c.masterClockDiv, c.masterClockErc);
    var a := Tally(ms, env, log);
    var b := Tally(PrepareTicks(c), env, a.1);
    var j := Run(AdjustOps(m, c.ioDelay), env, b.1);
    TallyBounds(ms, env, log);
    TallyBounds(PrepareTicks(c), env, a.1);
    TallyBounds(SlaveXilinxes(c, 4), env, j.1);
  }

  // ---------------------------------------------------------------- the routines

  /** Once a run has failed, the calls after it are not made. */
  lemma {:induction false} RunStays(gs: seq<Guard>, n: nat, env: seq<int>, log: seq<Call>)
    requires n <= |gs| && Run(gs[..n], env, log).0 != 0
    ensures Run(gs, env, log) == Run(gs[..n], env, log)
    decreases |gs|
  {
    if n < |gs| {
      var q := gs[..|gs| - 1];
      assert q[..n] == gs[..n];
      RunStays(q, n, env, log);
    } else {
      assert gs[..n] == gs;
    }
  }

  lemma MainCsrKeepsReset(w: bv32)
    requires w & 0x8000_C888 == 0
    ensures w & MAIN_CSR_RESET == 0
  {
  }

  /** Clearing the reset bit of a word that has it clear changes nothing. */
  lemma ResetBitClear(w: bv32)
    requires w & MAIN_CSR_RESET == 0
    ensures w & !MAIN_CSR_RESET == w
  {
  }

  /**
   * The main-board registers as Init leaves them for configuration `c`: the
   * main CSR with the multiplexer settings and user word, the trigger CSR
   * (inhibited) with the trigger sources, the trigger time counter cleared,
   * the FIFO under hard and soft reset with its window.
   */
  ghost predicate Programmed(c: Conf, a32: Hardware.A32Regs)
    reads a32
  {
    a32.csrOut == MainCsrWord(c.masterTrigMux, c.masterInhMux, c.masterClockMux, c.trigUserWord, c.auxTrigOut, c.tokenSync) &&
    a32.trigCsr == TrigCsrWord(c.auxTrigIn, c.masterTrig2Fifo, c.trigBlkTime, c.trigOrTime, c.trigGenMask) &&
    a32.trigGtime == 0 && a32.fifoCsr == FIFO_CSR_HRESET | FIFO_CSR_SRESET &&
    a32.fifoWin == Window(c.fifoBegin, c.fifoEnd)
  }

  /** The stores that set the main I2C master's prescaler, low byte then high byte, and enable its core. */
  function MainI2cSetUp(): seq<Script.Ev>
  {
    [Script.Ev(Script.PortWr(I2cBus, PrescLo, I2C_PRESC % 0x100), 0),
     Script.Ev(Script.PortWr(I2cBus, PrescHi, I2C_PRESC / 0x100 % 0x100), 0),
     Script.Ev(Script.PortWr(I2cBus, Ctr, I2C_CTR_CORE_ENABLE), 0)]
  }

  /**
   * A module seen at the level of its primitive calls: the set-up routines
   * of Uwfd64.Module, with each primitive a logged call whose result is the
   * environment's next answer.
   */
  class Board {
    /** The module whose registers and configuration the routines use. */
    const unit: Uwfd64.Module
    /** What the primitives return, in call order. */
    const env: seq<int>
    /** The mask ADCAdjust takes when it is called without one, as Init calls it. */
    const adjustMask: int
    /** The primitive calls made so far. */
    var log: seq<Call>

    constructor (unit: Uwfd64.Module, env: seq<int>)
      ensures this.unit == unit && this.env == env && adjustMask == ALL_ADCS && log == []
    {
      this.unit := unit;
      this.env := env;
      adjustMask := ALL_ADCS;
      log := [];
    }

    /** One primitive call: it is logged and returns the next answer. */
    method Issue(c: Call) returns (v: int)
      modifies this`log
      ensures v == Answer(env, |old(log)|) && log == old(log) + [c]
    {
      v := Answer(env, |log|);
      log := log + [c];
    }

    /**
     * Makes the calls `ts` in order, counting each failure, and repeating a
     * read whose unexpected value is displayed.
     */
    method Counted(ts: seq<Tick>) returns (errcnt: int)
      modifies this`log
      ensures errcnt == Tally(ts, env, old(log)).0 && log == Tally(ts, env, old(log)).1
    {
      errcnt := 0;
      var k := 0;
      while k < |ts|
        invariant 0 <= k <= |ts|
        invariant (errcnt, log) == Tally(ts[..k], env, old(log))
      {
        var t := ts[k];
        assert ts[..k + 1][..k] == ts[..k];
        ghost var p := log;
        var v := Issue(t.call);
        if Bad(t.test, v) {
          errcnt := errcnt + 1;
          if t.echo {
            v := Issue(t.call);
            assert log == p + [t.call, t.call];
          }
        }
        k := k + 1;
      }
      assert ts[..k] == ts;
    }

    /** Makes the calls `gs` in order and returns at the first failure with its exit code. */
    method Guarded(gs: seq<Guard>) returns (rc: int)
      modifies this`log
      ensures rc == Run(gs, env, old(log)).0 && log == Run(gs, env, old(log)).1
    {
      rc := 0;
      var k := 0;
      while k < |gs|
        invariant 0 <= k <= |gs|
        invariant rc == 0 && (rc, log) == Run(gs[..k], env, old(log))
      {
        var g := gs[k];
        assert gs[..k + 1][..k] == gs[..k];
        var v := Issue(g.call);
        if Bad(g.test, v) {
          rc := Exit(g, v);
          if rc != 0 {
            RunStays(gs, k + 1, env, old(log));
            return;
          }
        }
        k := k + 1;
      }
      assert gs[..k] == gs;
    }

    /** ConfigureMasterClock: programs and verifies the CDCUN; the number of errors met. */
    method ConfigureMasterClock(sel: int, div: int, erc: int) returns (errcnt: int)
      modifies this`log
      ensures errcnt == Tally(MasterTicks(sel, div, erc), env, old(log)).0 && log == Tally(MasterTicks(sel, div, erc), env, old(log)).1
    {
      errcnt := Counted(MasterTicks(sel, div, erc));
    }

    /** ConfigureSlaveXilinx: writes the trigger set-up of slave Xilinx `num`; the number of failed writes. */
    method ConfigureSlaveXilinx(num: int) returns (errcnt: int)
      requires Shaped(unit.conf) && 0 <= num < 4
      modifies this`log
      ensures errcnt == Tally(XilinxTicks(unit.conf, num), env, old(log)).0 && log == Tally(XilinxTicks(unit.conf, num), env, old(log)).1
    {
      errcnt := Counted(XilinxTicks(unit.conf, num));
    }

    /** ADCAdjust: adjusts the receivers of the ADCs `adcmask` selects; 0, or the code of the first failure. */
    method ADCAdjust(adcmask: int) returns (rc: int)
      modifies this`log
      ensures rc == Run(AdjustOps(adcmask, unit.conf.ioDelay), env, old(log)).0 && log == Run(AdjustOps(adcmask, unit.conf.ioDelay), env, old(log)).1
    {
      rc := Guarded(AdjustOps(adcmask, unit.conf.ioDelay));
    }

    /** Writes `w` to the main CSR, then pulses its reset bit, which `w` leaves clear. */
    method WriteMainCsr(w: bv32)
      requires w & MAIN_CSR_RESET == 0
      modifies unit.a32`csrOut
      ensures unit.a32.csrOut == w
    {
      unit.a32.csrOut := w;
      unit.Reset();
      ResetBitClear(w);
    }

    /** The main-board registers Init sets: main CSR (then a reset pulse), trigger CSR and counter, FIFO. */
    method SetRegisters()
      modifies unit.a32`csrOut, unit.a32`trigCsr, unit.a32`trigGtime, unit.a32`fifoCsr, unit.a32`fifoWin
      ensures Programmed(unit.conf, unit.a32)
    {
      var c := unit.conf;
      var w := MainCsrWord(c.masterTrigMux, c.masterInhMux, c.masterClockMux, c.trigUserWord, c.auxTrigOut, c.tokenSync);
      MainCsrKeepsReset(w);
      WriteMainCsr(w);
      unit.a32.trigCsr := TrigCsrWord(c.auxTrigIn, c.masterTrig2Fifo, c.trigBlkTime, c.trigOrTime, c.trigGenMask);
      unit.a32.trigGtime := 0;
      unit.a32.fifoCsr := FIFO_CSR_HRESET | FIFO_CSR_SRESET;
      unit.a32.fifoWin := Window(c.fifoBegin, c.fifoEnd);
    }

    /** ConfigureSlaveXilinx on each of the four slave Xilinxes, adding up their errors. */
    method ConfigureSlaveXilinxes() returns (errcnt: int)
      requires Shaped(unit.conf)
      modifies this`log
      ensures errcnt == Tally(SlaveXilinxes(unit.conf, 4), env, old(log)).0 && log == Tally(SlaveXilinxes(unit.conf, 4), env, old(log)).1
    {
      errcnt := 0;
      var i := 0;
      while i < 4
        invariant 0 <= i <= 4
        invariant (errcnt, log) == Tally(SlaveXilinxes(unit.conf, i), env, old(log))
      {
        TallyAppend(SlaveXilinxes(unit.conf, i), XilinxTicks(unit.conf, i), env, old(log));
        var e := ConfigureSlaveXilinx(i);
        errcnt := errcnt + e;
        i := i + 1;
      }
    }

    /**
     * Init: sets up the main I2C master, the master clock, the main-board
     * registers, the DAC, the ADCs and the slave clocks, adjusts every ADC's
     * receiver and configures the four slave Xilinxes; the number of errors.
     */
    method Init() returns (errcnt: int)
      requires unit.Valid() && Shaped(unit.conf)
      modifies this`log, unit.a32.i2c
      modifies unit.a32`csrOut, unit.a32`trigCsr, unit.a32`trigGtime, unit.a32`fifoCsr, unit.a32`fifoWin
      ensures errcnt == InitFront(unit.conf, env, old(log)).0 + InitBack(unit.conf, adjustMask, env, InitFront(unit.conf, env, old(log)).1).0
      ensures log == InitBack(unit.conf, adjustMask, env, InitFront(unit.conf, env, old(log)).1).1
      ensures Programmed(unit.conf, unit.a32)
      ensures unit.a32.i2c.trace == old(unit.a32.i2c.trace) + MainI2cSetUp()
    {
      SetUpMainI2c();
      errcnt := StartUp();
      var e := AdjustAndConfigure(adjustMask);
      errcnt := errcnt + e;
    }

    /** The prescaler and the core enable of the main board's I2C master. */
    method SetUpMainI2c()
      requires unit.Valid()
      modifies unit.a32.i2c
      ensures unit.a32.i2c.trace == old(unit.a32.i2c.trace) + MainI2cSetUp()
    {
      var i2c := unit.a32.i2c;
      i2c.Store(PrescLo, I2C_PRESC % 0x100);
      i2c.Store(PrescHi, I2C_PRESC / 0x100 % 0x100);
      i2c.Store(Ctr, I2C_CTR_CORE_ENABLE);
    }

    /** The first half of Init: the master clock, the main-board registers, then the counted preparation. */
    method StartUp() returns (errcnt: int)
      modifies this`log
      modifies unit.a32`csrOut, unit.a32`trigCsr, unit.a32`trigGtime, unit.a32`fifoCsr, unit.a32`fifoWin
      ensures errcnt == InitFront(unit.conf, env, old(log)).0 && log == InitFront(unit.conf, env, old(log)).1
      ensures Programmed(unit.conf, unit.a32)
    {
      var c := unit.conf;
      errcnt := ConfigureMasterClock(ClockSelect(c), c.masterClockDiv, c.masterClockErc);
      SetRegisters();
      var e := Counted(PrepareTicks(c));
      errcnt := errcnt + e;
    }

    /** The second half of Init: adjust every ADC (one error if that fails), then configure the slave Xilinxes. */
    method AdjustAndConfigure(m: int) returns (errcnt: int)
      requires Shaped(unit.conf)
      modifies this`log
      ensures errcnt == InitBack(unit.conf, m, env, old(log)).0 && log == InitBack(unit.conf, m, env, old(log)).1
    {
      errcnt := 0;
      var rc := ADCAdjust(m);
      if rc != 0 {
        errcnt := errcnt + 1;
      }
      var e := ConfigureSlaveXilinxes();
      errcnt := errcnt + e;
    }
  }
}
