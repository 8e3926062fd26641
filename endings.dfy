/*
 * How each bus routine leaves the bus, on every path: the SPI routines
 * deselect the slave, the I2C routines end with a STOP, the ADC routines
 * deselect the ADC; and which failure each error code stands for.  Each
 * lemma takes any completed run of a routine's script (module Protocols),
 * which is what the routine's method in module Uwfd64 promises to make.
 */
module Endings {
  import opened RegMap
  import opened Script
  import opened Protocols

  /** `t` ends with the request `q`. */
  predicate EndsWith(t: seq<Ev>, q: Req)
  {
    0 < |t| && t[|t| - 1].req == q
  }

  /** Every ICX write of `u` returned 0. */
  predicate WritesOk(u: seq<Ev>)
  {
    forall k :: 0 <= k < |u| && u[k].req.IcxWr? ==> u[k].res == 0
  }

  /** Every step of `p` is simple and no write of it is derived from a kept result. */
  predicate AllSimple(p: seq<Step>)
  {
    forall s :: s in p ==> Simple(s) && !s.act.val.Derived?
  }

  // ---------------------------------------------------------------- SPI on the A32 ports

  /** A step of an SPI routine on port `b`: the wait, or a store or load that cannot fail and is not the wait's read. */
  predicate SpiStep(s: Step, b: Bus)
  {
    s == SpiWait(b) || (Simple(s) && s.Do? && s.act.val == Lit && s.fail == Never && s.act.req != PortRd(b, Csr))
  }

  /**
   * An SPI routine on port `b` that returned `rc` with trace `t`: its last
   * access deselects the slave, and it returned -10 exactly when BUSY read
   * set SPI_TIMEOUT times in a row just before that.
   */
  predicate SpiClosed(t: seq<Ev>, b: Bus, rc: int)
  {
    EndsWith(t, PortWr(b, Csr, 0))
    && (rc == -10 <==> TimedOut(t[..|t| - 1], PortRd(b, Csr), AnySet(SPI_CSR_BUSY), SPI_TIMEOUT))
  }

  lemma SpiCloses(f: Frame, b: Bus, t: seq<Ev>, rc: int)
    requires f.body != [] && forall s :: s in f.body ==> SpiStep(s, b)
    requires f.cleanup == Always(PortWr(b, Csr, 0)) && (f.ret == Zero || f.ret == HiLo)
    requires Completes(f, t, 0, rc)
    ensures SpiClosed(t, b, rc)
    ensures rc != -10 ==> (f.ret == Zero ==> rc == 0) && (f.ret == HiLo ==> 0 <= rc < 0x1_0000)
  {
    var st := State(0, [], 0);
    var o := CleanupRun(f, t, 0, rc);
    SpiSimple(f.body, b);
    SimpleRun(f.body, t, st, o);
    var u := t[..o.used];
    assert t[..|t| - 1] == u;
    if o.stopped {
      var i :| 0 <= i < |f.body| && StopsOn(f.body[i], u, o.code);
      assert f.body[i] in f.body;
      SpiStopReason(f.body[i], b, u, o.code);
    } else {
      var s := f.body[|f.body| - 1];
      assert s in f.body;
      SpiLast(s, b, u, o.st.kept);
    }
  }

  lemma SpiSimple(p: seq<Step>, b: Bus)
    requires forall s :: s in p ==> SpiStep(s, b)
    ensures forall s :: s in p ==> Simple(s)
  {
    forall s | s in p
      ensures Simple(s)
    {
      assert SpiStep(s, b);
    }
  }

  /** An SPI step that made the routine give up was the wait, which ran out. */
  lemma SpiStopReason(s: Step, b: Bus, u: seq<Ev>, c: int)
    requires SpiStep(s, b) && StopsOn(s, u, c)
    ensures c == -10 && TimedOut(u, PortRd(b, Csr), AnySet(SPI_CSR_BUSY), SPI_TIMEOUT)
  {
  }

  /** An SPI routine that went through does not end on a BUSY read. */
  lemma SpiLast(s: Step, b: Bus, u: seq<Ev>, kept: seq<int>)
    requires SpiStep(s, b) && 0 < |u| && Finishes(s, u[|u| - 1], kept)
    ensures !TimedOut(u, PortRd(b, Csr), AnySet(SPI_CSR_BUSY), SPI_TIMEOUT)
  {
    if s != SpiWait(b) {
      assert Target(u[|u| - 1].req) != PortRd(b, Csr);
    }
  }

  /** ICXWrite deselects on every path and returns 0, or -10 exactly when an SPI wait ran out. */
  lemma IcxWriteCloses(addr: int, val: int, t: seq<Ev>, rc: int)
    requires Completes(IcxWriteFrame(addr, val), t, 0, rc)
    ensures SpiClosed(t, IcxBus, rc) && (rc == 0 || rc == -10)
  {
    var b := IcxWriteFrame(addr, val).body;
    assert forall i :: 0 <= i < |b| ==> SpiStep(b[i], IcxBus);
    SpiCloses(IcxWriteFrame(addr, val), IcxBus, t, rc);
  }

  /** ICXRead deselects on every path and returns a 16-bit value, or -10 exactly when an SPI wait ran out. */
  lemma IcxReadCloses(addr: int, t: seq<Ev>, rc: int)
    requires Completes(IcxReadFrame(addr), t, 0, rc)
    ensures SpiClosed(t, IcxBus, rc) && (rc == -10 || 0 <= rc < 0x1_0000)
  {
    var b := IcxReadFrame(addr).body;
    assert forall i :: 0 <= i < |b| ==> SpiStep(b[i], IcxBus);
    SpiCloses(IcxReadFrame(addr), IcxBus, t, rc);
  }

  /** DACSet deselects on every path and returns 0, or -10 exactly when an SPI wait ran out. */
  lemma DacCloses(val: int, t: seq<Ev>, rc: int)
    requires Completes(DacFrame(val), t, 0, rc)
    ensures SpiClosed(t, DacBus, rc) && (rc == 0 || rc == -10)
  {
    var b := DacFrame(val).body;
    assert forall i :: 0 <= i < |b| ==> SpiStep(b[i], DacBus);
    SpiCloses(DacFrame(val), DacBus, t, rc);
  }

  // ---------------------------------------------------------------- I2C on the main port

  /** A step of an I2C routine on the main port: the wait, or a store or load that cannot fail and is not the wait's read. */
  predicate I2cStep(s: Step)
  {
    s == I2cWait || (Simple(s) && s.Do? && s.act.val == Lit && s.fail == Never && s.act.req != PortRd(I2cBus, Csr))
  }

  /**
   * An I2C routine on the main port that returned `rc` with trace `t`, whose
   * last command is `cmd` when it succeeds: it returned -10 exactly when TIP
   * read set I2C_TIMEOUT times in a row and a STOP followed as its last
   * access; either way the last command written to the CSR is `cmd` or that
   * STOP.
   */
  predicate I2cClosed(t: seq<Ev>, rc: int, cmd: int)
  {
    LastWrite(t) == Some(PortWr(I2cBus, Csr, if rc == -10 then I2C_SR_STOP else cmd))
    && (rc == -10 <==> EndsWith(t, PortWr(I2cBus, Csr, I2C_SR_STOP))
                       && TimedOut(t[..|t| - 1], PortRd(I2cBus, Csr), AnySet(I2C_SR_TRANSFER_IN_PRG), I2C_TIMEOUT))
  }

  lemma I2cCloses(f: Frame, t: seq<Ev>, rc: int, cmd: int)
    requires f.body != [] && forall s :: s in f.body ==> I2cStep(s)
    requires var s := f.body[|f.body| - 1]; (s.Do? || s.Poll?) && s.act.Tx? && !HasVal(s.act.req)
    requires LastPlanned(f.body, 0) == Some(PortWr(I2cBus, Csr, cmd))
    requires f.cleanup == OnStop(PortWr(I2cBus, Csr, I2C_SR_STOP)) && (f.ret == Zero || f.ret == HiLo)
    requires Completes(f, t, 0, rc)
    ensures I2cClosed(t, rc, cmd)
    ensures rc != -10 ==> (f.ret == Zero ==> rc == 0) && (f.ret == HiLo ==> 0 <= rc < 0x1_0000)
  {
    var st := State(0, [], 0);
    var o := CleanupRun(f, t, st.arg, rc);
    SimpleRun(f.body, t, st, o);
    var u := t[..o.used];
    if o.stopped {
      var i :| 0 <= i < |f.body| && StopsOn(f.body[i], u, o.code);
      assert f.body[i] in f.body;
      assert t[..|t| - 1] == u;
      assert t == u + [t[|t| - 1]];
      LastWriteConcat(u, [t[|t| - 1]]);
      assert [t[|t| - 1]][..0] == [];
    } else {
      assert t == u;
      var s := f.body[|f.body| - 1];
      assert s in f.body;
      assert Finishes(s, u[|u| - 1], o.st.kept);
      SimpleLastWrite(f.body, t, st, o);
    }
  }

  lemma I2cReadSteps(addr: int)
    ensures forall s :: s in I2cReadFrame(addr).body ==> I2cStep(s)
    ensures LastPlanned(I2cReadFrame(addr).body, 0) == Some(PortWr(I2cBus, Csr, I2C_SR_READ + I2C_SR_STOP + I2C_SR_ACK))
  {
    var b := I2cReadFrame(addr).body;
    assert forall i :: 0 <= i < |b| ==> I2cStep(b[i]);
    assert forall j :: 12 < j < |b| ==> !(b[j].Do? && b[j].act.Tx? && HasVal(b[j].act.req));
    LastPlannedAt(b, 12, 0);
  }

  lemma I2cWriteSteps(addr: int, val: int)
    ensures forall s :: s in I2cWriteFrame(addr, val).body ==> I2cStep(s)
    ensures LastPlanned(I2cWriteFrame(addr, val).body, 0) == Some(PortWr(I2cBus, Csr, I2C_SR_WRITE + I2C_SR_STOP))
  {
    var b := I2cWriteFrame(addr, val).body;
    assert forall i :: 0 <= i < |b| ==> I2cStep(b[i]);
    assert b[11] == I2cWait;
    LastPlannedAt(b, 10, 0);
  }

  /** I2CRead: the last command is READ with STOP and ACK, or the STOP after a wait that ran out, which alone returns -10. */
  lemma I2cReadCloses(addr: int, t: seq<Ev>, rc: int)
    requires Completes(I2cReadFrame(addr), t, 0, rc)
    ensures I2cClosed(t, rc, I2C_SR_READ + I2C_SR_STOP + I2C_SR_ACK) && (rc == -10 || 0 <= rc < 0x1_0000)
  {
    I2cReadSteps(addr);
    I2cCloses(I2cReadFrame(addr), t, rc, I2C_SR_READ + I2C_SR_STOP + I2C_SR_ACK);
  }

  /** I2CWrite: the last command is WRITE with STOP, or the STOP after a wait that ran out, which alone returns -10. */
  lemma I2cWriteCloses(addr: int, val: int, t: seq<Ev>, rc: int)
    requires Completes(I2cWriteFrame(addr, val), t, 0, rc)
    ensures I2cClosed(t, rc, I2C_SR_WRITE + I2C_SR_STOP) && (rc == 0 || rc == -10)
  {
    I2cWriteSteps(addr, val);
    I2cCloses(I2cWriteFrame(addr, val), t, rc, I2C_SR_WRITE + I2C_SR_STOP);
  }

  // ---------------------------------------------------------------- I2C to the Si5338 through a slave Xilinx

  /** A step of an L2C routine through slave `x`: the wait, the acknowledge check, the data read, or an ICX write that gives up with -10 when it fails. */
  predicate L2cStep(s: Step, x: int)
  {
    s == TipWait(x) || s == AckCheck(x) || s == IcxGet(x + ICX_SLAVE_I2C_DAT)
    || (Simple(s) && s.Do? && s.act.req.IcxWr? && !s.act.val.Derived? && s.fail == NonZero && s.rc == Fixed(-10))
  }

  predicate L2cSteps(p: seq<Step>, x: int)
  {
    forall s :: s in p ==> L2cStep(s, x)
  }

  /**
   * What an L2C routine gives up on at the end of `u`: an ICX write that
   * failed, an address the Si5338 did not acknowledge (RXACK set), or TIP
   * read set L2C_TIMEOUT times in a row.
   */
  predicate L2cFailure(u: seq<Ev>, x: int)
  {
    0 < |u| &&
    ((u[|u| - 1].req.IcxWr? && u[|u| - 1].res != 0)
     || (u[|u| - 1].req == IcxRd(x + ICX_SLAVE_I2C_CSR) && And(u[|u| - 1].res, I2C_SR_RXACK) != 0)
     || TimedOut(u, IcxRd(x + ICX_SLAVE_I2C_CSR), AnySet(I2C_SR_TRANSFER_IN_PRG), L2C_TIMEOUT))
  }

  /**
   * An L2C routine through slave `x` with trace `t`, whose last command is
   * `cmd` when it goes through: when its last access is the STOP, that STOP
   * came right after the failure it gave up on; otherwise every ICX write
   * returned 0, the last access is a read and the last write is `cmd` to the
   * I2C CSR.
   */
  predicate L2cClosed(t: seq<Ev>, x: int, cmd: int)
  {
    if EndsWith(t, L2cStop(x)) then L2cFailure(t[..|t| - 1], x)
    else 0 < |t| && !HasVal(t[|t| - 1].req) && WritesOk(t)
         && LastWrite(t) == Some(IcxWr(x + ICX_SLAVE_I2C_CSR, cmd))
  }

  lemma L2cCloses(f: Frame, x: int, t: seq<Ev>, arg: int, rc: int, cmd: int)
    requires f.body != [] && L2cSteps(f.body, x)
    requires f.body[|f.body| - 1] == TipWait(x) || f.body[|f.body| - 1] == IcxGet(x + ICX_SLAVE_I2C_DAT)
    requires LastPlanned(f.body, arg) == Some(IcxWr(x + ICX_SLAVE_I2C_CSR, cmd))
    requires f.cleanup == OnStop(L2cStop(x))
    requires f.ret == Zero || (f.ret == LastKept && f.body[|f.body| - 1] == IcxGet(x + ICX_SLAVE_I2C_DAT))
    requires Completes(f, t, arg, rc)
    ensures L2cClosed(t, x, cmd)
    ensures EndsWith(t, L2cStop(x)) ==> rc == -10
    ensures !EndsWith(t, L2cStop(x)) ==>
              t[|t| - 1].req == f.body[|f.body| - 1].act.req && rc == (if f.ret == Zero then 0 else t[|t| - 1].res)
  {
    var st := State(arg, [], 0);
    var o := CleanupRun(f, t, st.arg, rc);
    L2cSimple(f.body, x);
    SimpleRun(f.body, t, st, o);
    var u := t[..o.used];
    if o.stopped {
      var i :| 0 <= i < |f.body| && StopsOn(f.body[i], u, o.code);
      assert f.body[i] in f.body;
      L2cStopReason(f.body[i], x, u, o.code);
      assert t[..|t| - 1] == u;
    } else {
      assert t == u;
      var s := f.body[|f.body| - 1];
      assert s in f.body;
      L2cLastRead(s, x, u[|u| - 1], o.st.kept);
      SimpleWrites(f.body, t, st, o, NonZero);
      SimpleLastWrite(f.body, t, st, o);
    }
  }

  lemma L2cSimple(p: seq<Step>, x: int)
    requires L2cSteps(p, x)
    ensures forall s :: s in p ==> Simple(s) && !s.act.val.Derived?
  {
    forall s | s in p
      ensures Simple(s) && !s.act.val.Derived?
    {
      assert L2cStep(s, x);
    }
  }

  /** An L2C step that made the routine give up did so with -10, on one of the failures it checks for. */
  lemma L2cStopReason(s: Step, x: int, u: seq<Ev>, c: int)
    requires L2cStep(s, x) && StopsOn(s, u, c)
    ensures c == -10 && L2cFailure(u, x)
  {
  }

  /** The last step of an L2C routine that went through is a read. */
  lemma L2cLastRead(s: Step, x: int, e: Ev, kept: seq<int>)
    requires s == TipWait(x) || s == IcxGet(x + ICX_SLAVE_I2C_DAT)
    requires Finishes(s, e, kept)
    ensures e.req == s.act.req && !HasVal(e.req)
    ensures s == IcxGet(x + ICX_SLAVE_I2C_DAT) ==> Last(kept) == e.res
  {
  }

  /** An address byte, or any byte, sent through slave `x`. */
  lemma SendSteps(x: int, dat: int, cmd: int, arg: int)
    ensures L2cSteps(L2cSend(x, dat, cmd), x) && L2cSend(x, dat, cmd)[2] == TipWait(x)
    ensures LastPlanned(L2cSend(x, dat, cmd), arg) == Some(IcxWr(x + ICX_SLAVE_I2C_CSR, cmd))
  {
    LastPlannedAt(L2cSend(x, dat, cmd), 1, arg);
  }

  lemma IssueSteps(x: int, cmd: int, arg: int)
    ensures L2cSteps(L2cIssue(x, cmd), x)
    ensures LastPlanned(L2cIssue(x, cmd), arg) == Some(IcxWr(x + ICX_SLAVE_I2C_CSR, cmd))
  {
    LastPlannedAt(L2cIssue(x, cmd), 0, arg);
  }

  lemma AddressSteps(x: int, addr: int, cmd: int, arg: int)
    ensures L2cSteps(L2cAddress(x, addr, cmd), x)
    ensures LastPlanned(L2cAddress(x, addr, cmd), arg) == Some(IcxWr(x + ICX_SLAVE_I2C_CSR, cmd))
    ensures L2cAddress(x, addr, cmd)[|L2cAddress(x, addr, cmd)| - 1] == TipWait(x)
  {
    SendSteps(x, SI5338_ADDR, I2C_SR_START + I2C_SR_WRITE, arg);
    SendSteps(x, addr, cmd, arg);
    LastPlannedConcat(L2cSend(x, SI5338_ADDR, I2C_SR_START + I2C_SR_WRITE) + [AckCheck(x)], L2cSend(x, addr, cmd), arg);
  }

  /** The data reads of a block read: their last command carries STOP. */
  lemma {:induction false} ReadsSteps(x: int, j: nat, len: int, arg: int)
    ensures L2cSteps(BlkReads(x, j, len), x)
    ensures j < len ==> LastPlanned(BlkReads(x, j, len), arg) == Some(IcxWr(x + ICX_SLAVE_I2C_CSR, I2C_SR_READ + I2C_SR_STOP + I2C_SR_ACK))
    ensures j < len ==> BlkReads(x, j, len)[|BlkReads(x, j, len)| - 1] == IcxGet(x + ICX_SLAVE_I2C_DAT)
    decreases len - j
  {
    if j < len {
      var a := L2cIssue(x, BlkReadCmd(j, len)) + [IcxGet(x + ICX_SLAVE_I2C_DAT)];
      IssueSteps(x, BlkReadCmd(j, len), arg);
      ReadsSteps(x, j + 1, len, arg);
      LastPlannedConcat(L2cIssue(x, BlkReadCmd(j, len)), [IcxGet(x + ICX_SLAVE_I2C_DAT)], arg);
      LastPlannedConcat(a, BlkReads(x, j + 1, len), arg);
    }
  }

  /** The data writes of a block write: their last command carries STOP. */
  lemma {:induction false} WritesSteps(x: int, buf: seq<int>, j: nat, arg: int)
    ensures L2cSteps(BlkWrites(x, buf, j), x)
    ensures j < |buf| ==> LastPlanned(BlkWrites(x, buf, j), arg) == Some(IcxWr(x + ICX_SLAVE_I2C_CSR, I2C_SR_WRITE + I2C_SR_STOP))
    ensures j < |buf| ==> BlkWrites(x, buf, j)[|BlkWrites(x, buf, j)| - 1] == TipWait(x)
    decreases |buf| - j
  {
    if j < |buf| {
      SendSteps(x, buf[j], BlkWriteCmd(j, |buf|), arg);
      WritesSteps(x, buf, j + 1, arg);
      LastPlannedConcat(L2cSend(x, buf[j], BlkWriteCmd(j, |buf|)), BlkWrites(x, buf, j + 1), arg);
    }
  }

  /**
   * L2CRead through slave `x` returned `rc` with trace `t`: when its last
   * access is the STOP sent after a failed write, a missing acknowledge or a
   * wait that ran out, it returned -10; otherwise its last command is READ
   * with STOP and ACK and it returns the value of its last access, the read
   * of the data register (which may itself be -10 from ICXRead).
   */
  predicate L2cReadEnds(t: seq<Ev>, x: int, rc: int)
  {
    L2cClosed(t, x, I2C_SR_READ + I2C_SR_STOP + I2C_SR_ACK)
    && (EndsWith(t, L2cStop(x)) ==> rc == -10)
    && (!EndsWith(t, L2cStop(x)) ==> t[|t| - 1].req == IcxRd(x + ICX_SLAVE_I2C_DAT) && rc == t[|t| - 1].res)
  }

  lemma L2cReadCloses(num: int, addr: int, t: seq<Ev>, rc: int)
    requires Completes(L2cReadFrame(num, addr), t, 0, rc)
    ensures L2cReadEnds(t, L2cSlave(num), rc)
  {
    var x := L2cSlave(num);
    var a := L2cAddress(x, addr, I2C_SR_WRITE + I2C_SR_STOP) + L2cSend(x, SI5338_ADDR + I2C_DAT_DDIR, I2C_SR_START + I2C_SR_WRITE);
    AddressSteps(x, addr, I2C_SR_WRITE + I2C_SR_STOP, 0);
    SendSteps(x, SI5338_ADDR + I2C_DAT_DDIR, I2C_SR_START + I2C_SR_WRITE, 0);
    IssueSteps(x, I2C_SR_READ + I2C_SR_STOP + I2C_SR_ACK, 0);
    LastPlannedConcat(a + L2cIssue(x, I2C_SR_READ + I2C_SR_STOP + I2C_SR_ACK), [IcxGet(x + ICX_SLAVE_I2C_DAT)], 0);
    LastPlannedConcat(a, L2cIssue(x, I2C_SR_READ + I2C_SR_STOP + I2C_SR_ACK), 0);
    L2cCloses(L2cReadFrame(num, addr), x, t, 0, rc, I2C_SR_READ + I2C_SR_STOP + I2C_SR_ACK);
  }

  /** L2CWrite: -10 exactly when its last access is the STOP sent after a failure; otherwise 0, with WRITE and STOP its last command. */
  lemma L2cWriteCloses(num: int, addr: int, val: int, t: seq<Ev>, rc: int)
    requires Completes(L2cWriteFrame(num, addr), t, val, rc)
    ensures var x := L2cSlave(num);
      L2cClosed(t, x, I2C_SR_WRITE + I2C_SR_STOP) && (rc == 0 || rc == -10) && (rc == -10 <==> EndsWith(t, L2cStop(x)))
  {
    var x := L2cSlave(num);
    var a := L2cAddress(x, addr, I2C_SR_WRITE)
             + [Do(Tx(IcxWr(x + ICX_SLAVE_I2C_DAT, 0), FromArg(0xFF, 0)), NonZero, Fixed(-10), NoTally, false, false)];
    AddressSteps(x, addr, I2C_SR_WRITE, val);
    IssueSteps(x, I2C_SR_WRITE + I2C_SR_STOP, val);
    LastPlannedConcat(a, L2cIssue(x, I2C_SR_WRITE + I2C_SR_STOP), val);
    L2cCloses(L2cWriteFrame(num, addr), x, t, val, rc, I2C_SR_WRITE + I2C_SR_STOP);
  }

  /** The script of L2CBlkRead: the last command is that of its last data read, or, with no byte to read, the restart for reading. */
  lemma BlkReadSteps(num: int, addr: int, len: int)
    ensures var x, b := L2cSlave(num), L2cBlkReadFrame(num, addr, len).body;
      b != [] && L2cSteps(b, x)
      && (b[|b| - 1] == TipWait(x) || b[|b| - 1] == IcxGet(x + ICX_SLAVE_I2C_DAT))
      && LastPlanned(b, 0) == Some(IcxWr(x + ICX_SLAVE_I2C_CSR, if len > 0 then I2C_SR_READ + I2C_SR_STOP + I2C_SR_ACK
                                                               else I2C_SR_START + I2C_SR_WRITE))
  {
    var x := L2cSlave(num);
    var a := L2cAddress(x, addr, I2C_SR_WRITE + I2C_SR_STOP) + L2cSend(x, SI5338_ADDR + I2C_DAT_DDIR, I2C_SR_START + I2C_SR_WRITE);
    AddressSteps(x, addr, I2C_SR_WRITE + I2C_SR_STOP, 0);
    SendSteps(x, SI5338_ADDR + I2C_DAT_DDIR, I2C_SR_START + I2C_SR_WRITE, 0);
    LastPlannedConcat(L2cAddress(x, addr, I2C_SR_WRITE + I2C_SR_STOP), L2cSend(x, SI5338_ADDR + I2C_DAT_DDIR, I2C_SR_START + I2C_SR_WRITE), 0);
    ReadsSteps(x, 0, len, 0);
    LastPlannedConcat(a, BlkReads(x, 0, len), 0);
    if len <= 0 {
      assert L2cBlkReadFrame(num, addr, len).body == a;
    }
  }

  /** The script of L2CBlkWrite: the last command is that of its last data byte, or, with no byte to write, that of the register address. */
  lemma BlkWriteSteps(num: int, addr: int, buf: seq<int>)
    ensures var x, b := L2cSlave(num), L2cBlkWriteFrame(num, addr, buf).body;
      b != [] && L2cSteps(b, x) && b[|b| - 1] == TipWait(x)
      && LastPlanned(b, 0) == Some(IcxWr(x + ICX_SLAVE_I2C_CSR, if |buf| > 0 then I2C_SR_WRITE + I2C_SR_STOP else I2C_SR_WRITE))
  {
    var x := L2cSlave(num);
    AddressSteps(x, addr, I2C_SR_WRITE, 0);
    WritesSteps(x, buf, 0, 0);
    LastPlannedConcat(L2cAddress(x, addr, I2C_SR_WRITE), BlkWrites(x, buf, 0), 0);
    if |buf| == 0 {
      assert L2cBlkWriteFrame(num, addr, buf).body == L2cAddress(x, addr, I2C_SR_WRITE);
    }
  }

  /** L2CBlkRead of at least one byte: -10 exactly when its last access is the STOP sent after a failure; otherwise 0, with READ, STOP and ACK its last command. */
  lemma L2cBlkReadCloses(num: int, addr: int, len: int, t: seq<Ev>, rc: int)
    requires len >= 1 && Completes(L2cBlkReadFrame(num, addr, len), t, 0, rc)
    ensures var x := L2cSlave(num);
      L2cClosed(t, x, I2C_SR_READ + I2C_SR_STOP + I2C_SR_ACK) && (rc == 0 || rc == -10) && (rc == -10 <==> EndsWith(t, L2cStop(x)))
  {
    BlkReadSteps(num, addr, len);
    L2cCloses(L2cBlkReadFrame(num, addr, len), L2cSlave(num), t, 0, rc, I2C_SR_READ + I2C_SR_STOP + I2C_SR_ACK);
  }

  /**
   * L2CBlkRead as written, asked for no byte: when it goes through, the last
   * command it leaves on the Si5338's bus is the START of the read
   * transaction, with no STOP after it.
   */
  lemma L2cBlkReadLeavesOpen(num: int, addr: int, len: int, t: seq<Ev>, rc: int)
    requires len <= 0 && Completes(L2cBlkReadFrame(num, addr, len), t, 0, rc)
    ensures var x := L2cSlave(num);
      L2cClosed(t, x, I2C_SR_START + I2C_SR_WRITE) && (rc == 0 || rc == -10) && (rc == -10 <==> EndsWith(t, L2cStop(x)))
      && (rc == 0 ==> LastWrite(t) == Some(IcxWr(x + ICX_SLAVE_I2C_CSR, I2C_SR_START + I2C_SR_WRITE)))
  {
    BlkReadSteps(num, addr, len);
    L2cCloses(L2cBlkReadFrame(num, addr, len), L2cSlave(num), t, 0, rc, I2C_SR_START + I2C_SR_WRITE);
  }

  /** L2CBlkRead as intended: with no byte to read it leaves the bus alone; otherwise it ends as `L2cBlkReadCloses` says. */
  lemma L2cBlkReadFixedCloses(num: int, addr: int, len: int, t: seq<Ev>, rc: int)
    requires Completes(L2cBlkReadFixed(num, addr, len), t, 0, rc)
    ensures var x := L2cSlave(num);
      if len <= 0 then t == [] && rc == 0
      else L2cClosed(t, x, I2C_SR_READ + I2C_SR_STOP + I2C_SR_ACK) && (rc == 0 || rc == -10) && (rc == -10 <==> EndsWith(t, L2cStop(x)))
  {
    if len > 0 {
      L2cBlkReadCloses(num, addr, len, t, rc);
    }
  }

  /** L2CBlkWrite of at least one byte: -10 exactly when its last access is the STOP sent after a failure; otherwise 0, with WRITE and STOP its last command. */
  lemma L2cBlkWriteCloses(num: int, addr: int, buf: seq<int>, t: seq<Ev>, rc: int)
    requires |buf| >= 1 && Completes(L2cBlkWriteFrame(num, addr, buf), t, 0, rc)
    ensures var x := L2cSlave(num);
      L2cClosed(t, x, I2C_SR_WRITE + I2C_SR_STOP) && (rc == 0 || rc == -10) && (rc == -10 <==> EndsWith(t, L2cStop(x)))
  {
    BlkWriteSteps(num, addr, buf);
    L2cCloses(L2cBlkWriteFrame(num, addr, buf), L2cSlave(num), t, 0, rc, I2C_SR_WRITE + I2C_SR_STOP);
  }

  /**
   * L2CBlkWrite as written, given no byte: when it goes through, the last
   * command it leaves on the Si5338's bus is the register address's WRITE,
   * with no STOP after it.
   */
  lemma L2cBlkWriteLeavesOpen(num: int, addr: int, buf: seq<int>, t: seq<Ev>, rc: int)
    requires buf == [] && Completes(L2cBlkWriteFrame(num, addr, buf), t, 0, rc)
    ensures var x := L2cSlave(num);
      L2cClosed(t, x, I2C_SR_WRITE) && (rc == 0 || rc == -10) && (rc == -10 <==> EndsWith(t, L2cStop(x)))
      && (rc == 0 ==> LastWrite(t) == Some(IcxWr(x + ICX_SLAVE_I2C_CSR, I2C_SR_WRITE)))
  {
    BlkWriteSteps(num, addr, buf);
    L2cCloses(L2cBlkWriteFrame(num, addr, buf), L2cSlave(num), t, 0, rc, I2C_SR_WRITE);
  }

  /** L2CBlkWrite as intended: with no byte to write it leaves the bus alone; otherwise it ends as `L2cBlkWriteCloses` says. */
  lemma L2cBlkWriteFixedCloses(num: int, addr: int, buf: seq<int>, t: seq<Ev>, rc: int)
    requires Completes(L2cBlkWriteFixed(num, addr, buf), t, 0, rc)
    ensures var x := L2cSlave(num);
      if buf == [] then t == [] && rc == 0
      else L2cClosed(t, x, I2C_SR_WRITE + I2C_SR_STOP) && (rc == 0 || rc == -10) && (rc == -10 <==> EndsWith(t, L2cStop(x)))
  {
    if buf != [] {
      L2cBlkWriteCloses(num, addr, buf, t, rc);
    }
  }

  // ---------------------------------------------------------------- SPI to the ADCs through a slave Xilinx

  /** A step of an ADC routine through slave `x`: the read of the SPI data register, or an ICX write that gives up with -1 when it fails. */
  predicate AdcStep(s: Step, x: int)
  {
    s == IcxGet(x + ICX_SLAVE_SPI_DAT)
    || (Simple(s) && s.Do? && s.act.req.IcxWr? && s.act.val == Lit && s.fail == NonZero && s.rc == Fixed(-1))
  }

  /** The ADC deselect: 0 to the slave's SPI CSR. */
  function AdcDeselect(x: int): Req
  {
    IcxWr(x + ICX_SLAVE_SPI_CSR, 0)
  }

  lemma WritesOkPrefix(t: seq<Ev>, n: nat)
    requires n <= |t| && WritesOk(t)
    ensures WritesOk(t[..n])
  {
    assert forall k :: 0 <= k < n ==> t[..n][k] == t[k];
  }

  /**
   * An ADC routine through slave `x`: its last write deselects the ADC; it
   * either gave up with -1, deselecting after the write that failed, or
   * every write went through and it returns 0 or the value of its last
   * access, the last step of its script.
   */
  lemma AdcCloses(f: Frame, x: int, t: seq<Ev>, rc: int)
    requires f.body != [] && forall s :: s in f.body ==> AdcStep(s, x)
    requires f.body[|f.body| - 1].Do? && f.body[|f.body| - 1].act.Tx?
    requires LastPlanned(f.body, 0) == Some(AdcDeselect(x))
    requires f.cleanup == OnStop(AdcDeselect(x))
    requires f.ret == Zero || (f.ret == LastKept && f.body[|f.body| - 1] == IcxGet(x + ICX_SLAVE_SPI_DAT))
    requires Completes(f, t, 0, rc)
    ensures LastWrite(t) == Some(AdcDeselect(x))
    ensures (rc == -1 && EndsWith(t, AdcDeselect(x)) && !WritesOk(t[..|t| - 1]))
         || (WritesOk(t) && 0 < |t| && Target(t[|t| - 1].req) == Target(f.body[|f.body| - 1].act.req)
             && rc == (if f.ret == Zero then 0 else t[|t| - 1].res))
  {
    var st := State(0, [], 0);
    var o := CleanupRun(f, t, 0, rc);
    AdcSimple(f.body, x);
    SimpleRun(f.body, t, st, o);
    var u := t[..o.used];
    if o.stopped {
      var i :| 0 <= i < |f.body| && StopsOn(f.body[i], u, o.code);
      assert f.body[i] in f.body;
      AdcStopReason(f.body[i], x, u, o.code);
      assert t[..|t| - 1] == u;
      assert t == u + [t[|t| - 1]];
      LastWriteConcat(u, [t[|t| - 1]]);
      assert [t[|t| - 1]][..0] == [];
    } else {
      assert t == u;
      var s := f.body[|f.body| - 1];
      assert s in f.body;
      AdcLast(s, x, u[|u| - 1], o.st.kept);
      SimpleWrites(f.body, t, st, o, NonZero);
      SimpleLastWrite(f.body, t, st, o);
    }
  }

  lemma AdcSimple(p: seq<Step>, x: int)
    requires forall s :: s in p ==> AdcStep(s, x)
    ensures forall s :: s in p ==> Simple(s) && !s.act.val.Derived? && (s.Do? && HasVal(s.act.req) ==> s.fail == NonZero)
  {
    forall s | s in p
      ensures Simple(s) && !s.act.val.Derived? && (s.Do? && HasVal(s.act.req) ==> s.fail == NonZero)
    {
      assert AdcStep(s, x);
    }
  }

  /** An ADC step that made the routine give up was an ICX write that failed, and it gave up with -1. */
  lemma AdcStopReason(s: Step, x: int, u: seq<Ev>, c: int)
    requires AdcStep(s, x) && StopsOn(s, u, c)
    ensures c == -1 && u[|u| - 1].req.IcxWr? && u[|u| - 1].res != 0
  {
  }

  /** The last event of an ADC routine that went through is an access to its last step's target. */
  lemma AdcLast(s: Step, x: int, e: Ev, kept: seq<int>)
    requires AdcStep(s, x) && Finishes(s, e, kept)
    ensures Target(e.req) == Target(s.act.req)
    ensures s == IcxGet(x + ICX_SLAVE_SPI_DAT) ==> Last(kept) == e.res
  {
  }

  /** The ICX writes of an ADC routine, the last of them the deselect. */
  lemma PutsSteps(ws: seq<(int, int)>, x: int)
    requires 0 < |ws| && ws[|ws| - 1] == (x + ICX_SLAVE_SPI_CSR, 0)
    ensures forall s :: s in Puts(ws, -1) ==> AdcStep(s, x)
    ensures LastPlanned(Puts(ws, -1), 0) == Some(AdcDeselect(x))
  {
    var p := Puts(ws, -1);
    forall s | s in p
      ensures AdcStep(s, x)
    {
      var i :| 0 <= i < |p| && p[i] == s;
    }
    LastPlannedAt(p, |p| - 1, 0);
  }

  /**
   * ADCRead through slave `x` returned `rc` with trace `t`: its last write
   * deselects the ADC; after a failed write it deselected at once and
   * returned -1, otherwise it returns what its last access, the read of the
   * SPI data register, returned.
   */
  predicate AdcReadEnds(t: seq<Ev>, x: int, rc: int)
  {
    0 < |t| && LastWrite(t) == Some(AdcDeselect(x))
    && (!WritesOk(t[..|t| - 1]) ==> rc == -1 && EndsWith(t, AdcDeselect(x)))
    && (WritesOk(t[..|t| - 1]) ==> t[|t| - 1].req == IcxRd(x + ICX_SLAVE_SPI_DAT) && rc == t[|t| - 1].res)
  }

  lemma AdcReadCloses(num: int, addr: int, t: seq<Ev>, rc: int)
    requires Completes(AdcReadFrame(num, addr), t, 0, rc)
    ensures AdcReadEnds(t, AdcXil(num), rc)
  {
    var x := AdcXil(num);
    PutsSteps(AdcReadPuts(num, addr), x);
    LastPlannedConcat(Puts(AdcReadPuts(num, addr), -1), [IcxGet(x + ICX_SLAVE_SPI_DAT)], 0);
    AdcCloses(AdcReadFrame(num, addr), x, t, rc);
    if WritesOk(t) {
      WritesOkPrefix(t, |t| - 1);
    }
  }

  /** ADCWrite through slave `x`: its last write deselects the ADC, and it returns -1 exactly when an ICX write failed, 0 otherwise. */
  predicate AdcWriteEnds(t: seq<Ev>, x: int, rc: int)
  {
    LastWrite(t) == Some(AdcDeselect(x)) && (rc == 0 || rc == -1) && (rc == -1 <==> !WritesOk(t))
  }

  lemma AdcWriteCloses(num: int, addr: int, val: int, t: seq<Ev>, rc: int)
    requires Completes(AdcWriteFrame(num, addr, val), t, 0, rc)
    ensures AdcWriteEnds(t, AdcXil(num), rc)
  {
    var x := AdcXil(num);
    PutsSteps(AdcWritePuts(num, addr, val), x);
    AdcCloses(AdcWriteFrame(num, addr, val), x, t, rc);
    if !WritesOk(t[..|t| - 1]) && WritesOk(t) {
      WritesOkPrefix(t, |t| - 1);
    }
  }

  // ---------------------------------------------------------------- the check sequence of the slave Xilinxes

  /** A step of ADCCheckSeq with test time `time`: a start step that gives up with -1, or a wait for TSTART that gives up with -2. */
  predicate CheckStep(s: Step, time: nat)
  {
    Simple(s) && (s.act.req.IcxRd? || s.act.req.IcxWr?)
    && (s.Do? ==> s.rc == Fixed(-1) && s.fail == if s.act.req.IcxWr? then NonZero else Negative)
    && (s.Poll? ==> s.code == -2 && s.busy == NoneSet(SLAVE_CSR_TSTART) && s.limit == Pow2(2 * (time + 1)))
  }

  lemma {:induction false} StartsSteps(time: nat, mask: int, i: nat)
    ensures forall s :: s in CheckStarts(time, mask, i) ==> CheckStep(s, time)
    decreases 4 - i
  {
    if i < 4 {
      StartsSteps(time, mask, i + 1);
    }
  }

  lemma {:induction false} WaitsSteps(time: nat, mask: int, i: nat)
    ensures forall s :: s in CheckWaits(time, mask, i) ==> CheckStep(s, time)
    decreases 4 - i
  {
    if i < 4 {
      WaitsSteps(time, mask, i + 1);
    }
  }

  /**
   * ADCCheckSeq returns 0, -1 or -2: -1 when its last access was a start
   * step that failed (a negative read of a slave's CSR or an ICX write that
   * failed), -2 when its last accesses were 2^(2 time + 2) reads of one
   * slave's CSR with TSTART clear; and when it returns 0 every ICX write
   * went through.
   */
  /**
   * ADCCheckSeq with measurement time `time` returned `rc` with trace `t`:
   * -1 right after a failed write or a failed status read, -2 right after
   * the last of 2^(2 (time + 1)) status reads that all found the sequence
   * still running, 0 only when every write went through.
   */
  predicate CheckSeqEnds(t: seq<Ev>, time: nat, rc: int)
  {
    (rc == 0 || rc == -1 || rc == -2)
    && (rc == -1 ==> 0 < |t| && ((t[|t| - 1].req.IcxWr? && t[|t| - 1].res != 0)
                                 || (t[|t| - 1].req.IcxRd? && t[|t| - 1].res < 0)))
    && (rc == -2 ==> 0 < |t| && t[|t| - 1].req.IcxRd?
                     && TimedOut(t, t[|t| - 1].req, NoneSet(SLAVE_CSR_TSTART), Pow2(2 * (time + 1))))
    && (rc == 0 ==> WritesOk(t))
  }

  lemma CheckSeqCloses(time: nat, mask: int, t: seq<Ev>, rc: int)
    requires Completes(CheckSeqFrame(time, mask), t, 0, rc)
    ensures CheckSeqEnds(t, time, rc)
  {
    var f := CheckSeqFrame(time, mask);
    var st := State(0, [], 0);
    CheckSimple(time, mask);
    var o := Run(f.body, t, st).value;
    assert t == t[..o.used];
    SimpleRun(f.body, t, st, o);
    if o.stopped {
      var i :| 0 <= i < |f.body| && StopsOn(f.body[i], t, o.code);
      assert f.body[i] in f.body;
      CheckStopReason(f.body[i], time, t, o.code);
    } else {
      SimpleWrites(f.body, t, st, o, NonZero);
    }
  }

  lemma CheckSimple(time: nat, mask: int)
    ensures forall s :: s in CheckSeqFrame(time, mask).body ==>
              CheckStep(s, time) && Simple(s) && (s.Do? && HasVal(s.act.req) ==> s.fail == NonZero)
  {
    StartsSteps(time, mask, 0);
    WaitsSteps(time, mask, 0);
  }

  /** A step of ADCCheckSeq that made it give up: a failed start step with -1, or a wait that ran out with -2. */
  lemma CheckStopReason(s: Step, time: nat, u: seq<Ev>, c: int)
    requires CheckStep(s, time) && StopsOn(s, u, c)
    ensures c == -1 ==> (u[|u| - 1].req.IcxWr? && u[|u| - 1].res != 0) || (u[|u| - 1].req.IcxRd? && u[|u| - 1].res < 0)
    ensures c == -2 ==> u[|u| - 1].req.IcxRd? && TimedOut(u, u[|u| - 1].req, NoneSet(SLAVE_CSR_TSTART), Pow2(2 * (time + 1)))
    ensures c == -1 || c == -2
  {
  }
}
