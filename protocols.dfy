/*
 * The serial-bus protocols of the library as scripts: the SPI frames on the
 * ICX and DAC ports, the I2C transactions with the CDCUN clock multiplexer on
 * the main I2C port, and, one level up, the ADC SPI frames and the Si5338 I2C
 * transactions that go through the registers of a slave Xilinx.
 */
module Protocols {
  import opened RegMap
  import opened Script

  // ---------------------------------------------------------------- byte encodings

  /** `x & 0xFF`. */
  function Lo(x: int): int
  {
    x % 256
  }

  /** `(x >> 8) & 0xFF`. */
  function Hi(x: int): int
  {
    (x / 256) % 256
  }

  /** High address byte of an ICX read: `((addr | SPI_ADDR_DIR) >> 8) & 0xFF`. */
  function ReadAddrHi(addr: int): int
  {
    (addr / 256) % 128 + 128
  }

  /** High address byte of an ICX write: `((addr & ~SPI_ADDR_DIR) >> 8) & 0xFF`. */
  function WriteAddrHi(addr: int): int
  {
    (addr / 256) % 128
  }

  /**
   * The two address bytes of an ICX frame carry the 15-bit register address,
   * with bit 15 set for a read and clear for a write.
   */
  lemma AddressBytes(addr: int)
    ensures 0 <= ReadAddrHi(addr) < 256 && 0 <= WriteAddrHi(addr) < 256 && 0 <= Lo(addr) < 256
    ensures ReadAddrHi(addr) * 256 + Lo(addr) == addr % 0x8000 + SPI_ADDR_DIR
    ensures WriteAddrHi(addr) * 256 + Lo(addr) == addr % 0x8000
  {
  }

  /** The two data bytes of an ICX write carry the low 16 bits of the value. */
  lemma DataBytes(val: int)
    ensures Hi(val) * 256 + Lo(val) == val % 0x1_0000
  {
  }

  // ---------------------------------------------------------------- script building blocks

  /** A store to a port register. */
  function Put(b: Bus, r: PortReg, v: int): Step
  {
    Do(Tx(PortWr(b, r, v), Lit), Never, Fixed(0), NoTally, false, false)
  }

  /** A load from a port register whose value the routine keeps. */
  function Get(b: Bus, r: PortReg): Step
  {
    Do(Tx(PortRd(b, r), Lit), Never, Fixed(0), NoTally, true, false)
  }

  /** The SPI wait: poll the CSR until BUSY clears, at most SPI_TIMEOUT times, else return -10. */
  function SpiWait(b: Bus): Step
  {
    Poll(Tx(PortRd(b, Csr), Lit), AnySet(SPI_CSR_BUSY), SPI_TIMEOUT, -10)
  }

  /** The I2C wait on the main port: poll the CSR until TIP clears, at most I2C_TIMEOUT times, else return -10. */
  const I2cWait: Step := Poll(Tx(PortRd(I2cBus, Csr), Lit), AnySet(I2C_SR_TRANSFER_IN_PRG), I2C_TIMEOUT, -10)

  // ---------------------------------------------------------------- SPI on the A32 ports

  /** ICXWrite: select, send the address with bit 15 clear and the 16-bit value, deselect on every path. */
  function IcxWriteFrame(addr: int, val: int): Frame
  {
    Frame([Put(IcxBus, Csr, SPI_CSR_CS),
           Put(IcxBus, Dat, WriteAddrHi(addr)), SpiWait(IcxBus),
           Put(IcxBus, Dat, Lo(addr)), SpiWait(IcxBus),
           Put(IcxBus, Dat, Hi(val)), SpiWait(IcxBus),
           Put(IcxBus, Dat, Lo(val)), SpiWait(IcxBus)],
          Always(PortWr(IcxBus, Csr, 0)), Zero)
  }

  /** ICXRead: select, send the address with bit 15 set, turn the direction, clock in two bytes, deselect on every path. */
  function IcxReadFrame(addr: int): Frame
  {
    Frame([Put(IcxBus, Csr, SPI_CSR_CS),
           Put(IcxBus, Dat, ReadAddrHi(addr)), SpiWait(IcxBus),
           Put(IcxBus, Dat, Lo(addr)), SpiWait(IcxBus),
           Put(IcxBus, Csr, SPI_CSR_CS + SPI_CSR_DIR),
           Put(IcxBus, Dat, 0), SpiWait(IcxBus), Get(IcxBus, Dat),
           Put(IcxBus, Dat, 0), SpiWait(IcxBus), Get(IcxBus, Dat)],
          Always(PortWr(IcxBus, Csr, 0)), HiLo)
  }

  /** DACSet: select, send the 14-bit value high byte first, deselect on every path. */
  function DacFrame(val: int): Frame
  {
    Frame([Put(DacBus, Csr, SPI_CSR_CS),
           Put(DacBus, Dat, (val / 256) % 64), SpiWait(DacBus),
           Put(DacBus, Dat, Lo(val)), SpiWait(DacBus)],
          Always(PortWr(DacBus, Csr, 0)), Zero)
  }

  // ---------------------------------------------------------------- I2C on the main port (CDCUN)

  /** I2CRead: address the CDCUN, send the register, restart for reading, read two bytes; STOP on failure. */
  function I2cReadFrame(addr: int): Frame
  {
    Frame([Put(I2cBus, Dat, CDCUN_ADDR), Put(I2cBus, Csr, I2C_SR_START + I2C_SR_WRITE), I2cWait,
           Put(I2cBus, Dat, addr % 128), Put(I2cBus, Csr, I2C_SR_WRITE), I2cWait,
           Put(I2cBus, Dat, CDCUN_ADDR + I2C_DAT_DDIR), Put(I2cBus, Csr, I2C_SR_START + I2C_SR_WRITE), I2cWait,
           Put(I2cBus, Csr, I2C_SR_READ), I2cWait, Get(I2cBus, Dat),
           Put(I2cBus, Csr, I2C_SR_READ + I2C_SR_STOP + I2C_SR_ACK), I2cWait, Get(I2cBus, Dat)],
          OnStop(PortWr(I2cBus, Csr, I2C_SR_STOP)), HiLo)
  }

  /** I2CWrite: address the CDCUN, send the register and the two value bytes, the last with STOP; STOP on failure. */
  function I2cWriteFrame(addr: int, val: int): Frame
  {
    Frame([Put(I2cBus, Dat, CDCUN_ADDR), Put(I2cBus, Csr, I2C_SR_START + I2C_SR_WRITE), I2cWait,
           Put(I2cBus, Dat, addr % 128), Put(I2cBus, Csr, I2C_SR_WRITE), I2cWait,
           Put(I2cBus, Dat, Hi(val)), Put(I2cBus, Csr, I2C_SR_WRITE), I2cWait,
           Put(I2cBus, Dat, Lo(val)), Put(I2cBus, Csr, I2C_SR_WRITE + I2C_SR_STOP), I2cWait],
          OnStop(PortWr(I2cBus, Csr, I2C_SR_STOP)), Zero)
  }

  // ---------------------------------------------------------------- one level up: steps over ICX calls

  /** An ICXWrite whose failure makes the routine return `code`. */
  function IcxPut(a: int, v: int, code: int): Step
  {
    Do(Tx(IcxWr(a, v), Lit), NonZero, Fixed(code), NoTally, false, false)
  }

  /** An ICXRead whose result the routine keeps. */
  function IcxGet(a: int): Step
  {
    Do(Tx(IcxRd(a), Lit), Never, Fixed(0), NoTally, true, false)
  }

  // ---------------------------------------------------------------- I2C to the Si5338 through a slave Xilinx

  /** The slave Xilinx of an L2C call: `ICX_SLAVE_STEP * (num & 3)`. */
  function L2cSlave(num: int): int
  {
    SlaveReg(num % 4, 0)
  }

  /** The L2C wait: poll the slave's I2C CSR until TIP clears, at most L2C_TIMEOUT times, else return -10. */
  function TipWait(x: int): Step
  {
    Poll(Tx(IcxRd(x + ICX_SLAVE_I2C_CSR), Lit), AnySet(I2C_SR_TRANSFER_IN_PRG), L2C_TIMEOUT, -10)
  }

  /** An I2C command on the slave's master, then the wait. */
  function L2cIssue(x: int, cmd: int): seq<Step>
  {
    [IcxPut(x + ICX_SLAVE_I2C_CSR, cmd, -10), TipWait(x)]
  }

  /** A byte put on the slave's I2C data register, sent with command `cmd`. */
  function L2cSend(x: int, dat: int, cmd: int): seq<Step>
  {
    [IcxPut(x + ICX_SLAVE_I2C_DAT, dat, -10)] + L2cIssue(x, cmd)
  }

  /** The check that the Si5338 acknowledged its address: a set RXACK bit makes the routine return -10. */
  function AckCheck(x: int): Step
  {
    Do(Tx(IcxRd(x + ICX_SLAVE_I2C_CSR), Lit), AnySet(I2C_SR_RXACK), Fixed(-10), NoTally, false, false)
  }

  /** Addressing register `addr` of the Si5338: the chip address with START, the acknowledge check, the register with `cmd`. */
  function L2cAddress(x: int, addr: int, cmd: int): seq<Step>
  {
    L2cSend(x, SI5338_ADDR, I2C_SR_START + I2C_SR_WRITE) + [AckCheck(x)] + L2cSend(x, addr, cmd)
  }

  /** The STOP every failing L2C routine sends before it returns -10. */
  function L2cStop(x: int): Req
  {
    IcxWr(x + ICX_SLAVE_I2C_CSR, I2C_SR_STOP)
  }

  /** L2CRead: address the register with STOP, restart for reading, read one byte with STOP; the value read, or -10. */
  function L2cReadFrame(num: int, addr: int): Frame
  {
    var x := L2cSlave(num);
    Frame(L2cAddress(x, addr, I2C_SR_WRITE + I2C_SR_STOP)
          + L2cSend(x, SI5338_ADDR + I2C_DAT_DDIR, I2C_SR_START + I2C_SR_WRITE)
          + L2cIssue(x, I2C_SR_READ + I2C_SR_STOP + I2C_SR_ACK)
          + [IcxGet(x + ICX_SLAVE_I2C_DAT)],
          OnStop(L2cStop(x)), LastKept)
  }

  /** L2CWrite, called with the value as argument: address the register, send `val & 0xFF` with STOP; 0 or -10. */
  function L2cWriteFrame(num: int, addr: int): Frame
  {
    var x := L2cSlave(num);
    Frame(L2cAddress(x, addr, I2C_SR_WRITE)
          + [Do(Tx(IcxWr(x + ICX_SLAVE_I2C_DAT, 0), FromArg(0xFF, 0)), NonZero, Fixed(-10), NoTally, false, false)]
          + L2cIssue(x, I2C_SR_WRITE + I2C_SR_STOP),
          OnStop(L2cStop(x)), Zero)
  }

  /** The read command for byte `j` of `len`: the last one carries STOP and ACK. */
  function BlkReadCmd(j: int, len: int): int
  {
    if j == len - 1 then I2C_SR_READ + I2C_SR_STOP + I2C_SR_ACK else I2C_SR_READ
  }

  /** The write command for byte `j` of `len`: the last one carries STOP. */
  function BlkWriteCmd(j: int, len: int): int
  {
    if j == len - 1 then I2C_SR_WRITE + I2C_SR_STOP else I2C_SR_WRITE
  }

  /** Reading bytes `j` to `len - 1`, three steps each. */
  function BlkReads(x: int, j: nat, len: int): (p: seq<Step>)
    ensures |p| == if j < len then 3 * (len - j) else 0
    decreases len - j
  {
    if j >= len then []
    else L2cIssue(x, BlkReadCmd(j, len)) + [IcxGet(x + ICX_SLAVE_I2C_DAT)] + BlkReads(x, j + 1, len)
  }

  /** Writing bytes `j` to `|buf| - 1`, three steps each. */
  function BlkWrites(x: int, buf: seq<int>, j: nat): (p: seq<Step>)
    ensures |p| == if j < |buf| then 3 * (|buf| - j) else 0
    decreases |buf| - j
  {
    if j >= |buf| then []
    else L2cSend(x, buf[j], BlkWriteCmd(j, |buf|)) + BlkWrites(x, buf, j + 1)
  }

  /** L2CBlkRead: address the register with STOP, restart for reading, read `len` bytes; 0 or -10. */
  function L2cBlkReadFrame(num: int, addr: int, len: int): Frame
  {
    var x := L2cSlave(num);
    Frame(L2cAddress(x, addr, I2C_SR_WRITE + I2C_SR_STOP)
          + L2cSend(x, SI5338_ADDR + I2C_DAT_DDIR, I2C_SR_START + I2C_SR_WRITE)
          + BlkReads(x, 0, len),
          OnStop(L2cStop(x)), Zero)
  }

  /** L2CBlkWrite: address the register, write the bytes of `buf`, the last with STOP; 0 or -10. */
  function L2cBlkWriteFrame(num: int, addr: int, buf: seq<int>): Frame
  {
    var x := L2cSlave(num);
    Frame(L2cAddress(x, addr, I2C_SR_WRITE) + BlkWrites(x, buf, 0), OnStop(L2cStop(x)), Zero)
  }

  /** L2CBlkRead as intended: a block of no bytes is read without touching the bus. */
  function L2cBlkReadFixed(num: int, addr: int, len: int): Frame
  {
    if len <= 0 then Frame([], NoCleanup, Zero) else L2cBlkReadFrame(num, addr, len)
  }

  /** L2CBlkWrite as intended: a block of no bytes is written without touching the bus. */
  function L2cBlkWriteFixed(num: int, addr: int, buf: seq<int>): Frame
  {
    if buf == [] then Frame([], NoCleanup, Zero) else L2cBlkWriteFrame(num, addr, buf)
  }

  // ---------------------------------------------------------------- SPI to the ADCs through a slave Xilinx

  /** The slave Xilinx of ADC `num`: `ICX_SLAVE_STEP * ((num >> 2) & 3)`. */
  function AdcXil(num: int): int
  {
    SlaveReg(AdcSlave(num), 0)
  }

  /** ICX writes of `(register, value)` pairs in order, each returning `code` when it fails. */
  function Puts(ws: seq<(int, int)>, code: int): (p: seq<Step>)
    ensures |p| == |ws|
  {
    seq(|ws|, i requires 0 <= i < |ws| => IcxPut(ws[i].0, ws[i].1, code))
  }

  /** The writes of ADCRead: select the ADC, the address with the read flag, turn the direction, clock a byte, deselect. */
  function AdcReadPuts(num: int, addr: int): seq<(int, int)>
  {
    var x := AdcXil(num);
    [(x + ICX_SLAVE_SPI_CSR, AdcSelect(num)),
     (x + ICX_SLAVE_SPI_DAT, (addr + SPI_ADDR_DIR) / 256),
     (x + ICX_SLAVE_SPI_DAT, addr % 256),
     (x + ICX_SLAVE_SPI_CSR, AdcSelect(num) + SPI_CSR_DIR),
     (x + ICX_SLAVE_SPI_DAT, 0),
     (x + ICX_SLAVE_SPI_CSR, 0)]
  }

  /** ADCRead: the writes, then the read of the byte clocked in, which is returned; -1 on a failed write. */
  function AdcReadFrame(num: int, addr: int): Frame
  {
    var x := AdcXil(num);
    Frame(Puts(AdcReadPuts(num, addr), -1) + [IcxGet(x + ICX_SLAVE_SPI_DAT)],
          OnStop(IcxWr(x + ICX_SLAVE_SPI_CSR, 0)), LastKept)
  }

  /** The writes of ADCWrite: select the ADC, the address with the read flag clear, the value byte, deselect. */
  function AdcWritePuts(num: int, addr: int, val: int): seq<(int, int)>
  {
    var x := AdcXil(num);
    [(x + ICX_SLAVE_SPI_CSR, AdcSelect(num)),
     (x + ICX_SLAVE_SPI_DAT, (addr / 256) % 128),
     (x + ICX_SLAVE_SPI_DAT, addr % 256),
     (x + ICX_SLAVE_SPI_DAT, val % 256),
     (x + ICX_SLAVE_SPI_CSR, 0)]
  }

  /** ADCWrite: the writes; 0, or -1 on a failed write. */
  function AdcWriteFrame(num: int, addr: int, val: int): Frame
  {
    var x := AdcXil(num);
    Frame(Puts(AdcWritePuts(num, addr, val), -1), OnStop(IcxWr(x + ICX_SLAVE_SPI_CSR, 0)), Zero)
  }

  /** Two routine calls, the first negative result returned as is, else the two results as `(r1 << 8) + r2`. */
  function PairFrame(g1: Frame, g2: Frame): Frame
  {
    Frame([Do(Sub(g1, Const(0)), Negative, Result, NoTally, true, false),
           Do(Sub(g2, Const(0)), Negative, Result, NoTally, true, false)],
          NoCleanup, Pair)
  }

  /** GetADCID: the ID and grade registers as `(id << 8) + grade`; the first negative result is returned as is. */
  function AdcIdFrame(num: int): Frame
  {
    PairFrame(AdcReadFrame(num, ADC_REG_ID), AdcReadFrame(num, ADC_REG_GRADE))
  }

  /**
   * A run of a pair routine is the run of its first call, then, unless that
   * returned a negative value, the run of its second: the two calls make
   * the whole routine.
   */
  lemma PairRuns(g1: Frame, g2: Frame, t0: seq<Ev>, t1: seq<Ev>, t2: seq<Ev>, r1: int, r2: int, rc: int)
    requires Grows(t0, t1) && Completes(g1, Since(t0, t1), 0, r1)
    requires r1 < 0 ==> t2 == t1 && rc == r1
    requires r1 >= 0 ==> Grows(t1, t2) && Completes(g2, Since(t1, t2), 0, r2)
    requires r1 >= 0 ==> rc == if r2 < 0 then r2 else r1 * 256 + r2
    ensures Grows(t0, t2) && Completes(PairFrame(g1, g2), Since(t0, t2), 0, rc)
  {
    var f := PairFrame(g1, g2);
    var c := Cursor(f.body, 0, t0, State(0, [], 0), Outcome(false, 0, 0, State(0, [], 0)));
    Start(f.body, t0, State(0, [], 0));
    c := Called(c, t0, t1, r1);
    if r1 >= 0 {
      c := Called(c, t1, t2, r2);
    }
    Finished(f, c, t2, []);
    assert t2 + [] == t2;
  }

  // ---------------------------------------------------------------- the check sequence of the slave Xilinxes

  /** Starting the check of slave `x`: read its type, write it back with TSTART and the time, then without TSTART; -1 on a failure. */
  function CheckStart(x: int, time: nat): seq<Step>
  {
    [Do(Tx(IcxRd(x + ICX_SLAVE_CSR_IN), Lit), Negative, Fixed(-1), NoTally, true, false),
     Do(Tx(IcxWr(x + ICX_SLAVE_CSR_OUT, 0), Derived(0xF, Or(SLAVE_CSR_TSTART, time * 16))), NonZero, Fixed(-1), NoTally, false, false),
     Do(Tx(IcxWr(x + ICX_SLAVE_CSR_OUT, 0), Derived(0xF, time * 16)), NonZero, Fixed(-1), NoTally, false, false)]
  }

  /** Slave `i` takes part in the check when bit `i` of the mask is set. */
  predicate Selected(mask: int, i: nat)
  {
    And(mask, Pow2(i)) != 0
  }

  /** Starting the check on the selected slaves `i` to 3. */
  function CheckStarts(time: nat, mask: int, i: nat): seq<Step>
    decreases 4 - i
  {
    if i >= 4 then []
    else (if Selected(mask, i) then CheckStart(SlaveReg(i, 0), time) else []) + CheckStarts(time, mask, i + 1)
  }

  /** Waiting for the check of slave `x` to finish: poll until TSTART reads back set, at most 2^(2 time + 2) times, else -2. */
  function CheckWait(x: int, time: nat): Step
  {
    Poll(Tx(IcxRd(x + ICX_SLAVE_CSR_IN), Lit), NoneSet(SLAVE_CSR_TSTART), Pow2(2 * (time + 1)), -2)
  }

  /** Waiting on the selected slaves `i` to 3. */
  function CheckWaits(time: nat, mask: int, i: nat): (p: seq<Step>)
    decreases 4 - i
  {
    if i >= 4 then []
    else (if Selected(mask, i) then [CheckWait(SlaveReg(i, 0), time)] else []) + CheckWaits(time, mask, i + 1)
  }

  /** The start of the check on slave `i`, then on those after it, then `rest`. */
  lemma StartsNext(time: nat, mask: int, i: nat, rest: seq<Step>)
    requires i < 4
    ensures CheckStarts(time, mask, i) + rest
         == (if Selected(mask, i) then CheckStart(SlaveReg(i, 0), time) else []) + (CheckStarts(time, mask, i + 1) + rest)
  {
  }

  /** The wait on slave `i`, then on those after it. */
  lemma WaitsNext(time: nat, mask: int, i: nat)
    requires i < 4
    ensures CheckWaits(time, mask, i) == (if Selected(mask, i) then [CheckWait(SlaveReg(i, 0), time)] else []) + CheckWaits(time, mask, i + 1)
  {
  }

  /** ADCCheckSeq: start the check on every selected slave, then wait for each; 0, -1 or -2. */
  function CheckSeqFrame(time: nat, mask: int): Frame
  {
    Frame(CheckStarts(time, mask, 0) + CheckWaits(time, mask, 0), NoCleanup, Zero)
  }

  // ---------------------------------------------------------------- where each part of a routine sits in its script

  /** The parts of L2CRead's script, in order. */
  lemma L2cReadShape(num: int, addr: int)
    ensures var x, b := L2cSlave(num), L2cReadFrame(num, addr).body;
      |b| == 13 &&
      Upcoming(b, 0, L2cSend(x, SI5338_ADDR, I2C_SR_START + I2C_SR_WRITE)) && b[3] == AckCheck(x) &&
      Upcoming(b, 4, L2cSend(x, addr, I2C_SR_WRITE + I2C_SR_STOP)) &&
      Upcoming(b, 7, L2cSend(x, SI5338_ADDR + I2C_DAT_DDIR, I2C_SR_START + I2C_SR_WRITE)) &&
      Upcoming(b, 10, L2cIssue(x, I2C_SR_READ + I2C_SR_STOP + I2C_SR_ACK)) && b[12] == IcxGet(x + ICX_SLAVE_I2C_DAT)
  {
    var x, b := L2cSlave(num), L2cReadFrame(num, addr).body;
    assert b[7..10] == L2cSend(x, SI5338_ADDR + I2C_DAT_DDIR, I2C_SR_START + I2C_SR_WRITE);
  }

  /** The parts of L2CWrite's script, in order. */
  lemma L2cWriteShape(num: int, addr: int)
    ensures var x, b := L2cSlave(num), L2cWriteFrame(num, addr).body;
      |b| == 10 &&
      Upcoming(b, 0, L2cSend(x, SI5338_ADDR, I2C_SR_START + I2C_SR_WRITE)) && b[3] == AckCheck(x) &&
      Upcoming(b, 4, L2cSend(x, addr, I2C_SR_WRITE)) &&
      b[7] == Do(Tx(IcxWr(x + ICX_SLAVE_I2C_DAT, 0), FromArg(0xFF, 0)), NonZero, Fixed(-10), NoTally, false, false) &&
      Upcoming(b, 8, L2cIssue(x, I2C_SR_WRITE + I2C_SR_STOP))
  {
  }

  /** The parts of L2CBlkRead's script, in order. */
  lemma L2cBlkReadShape(num: int, addr: int, len: int)
    ensures var x, b := L2cSlave(num), L2cBlkReadFrame(num, addr, len).body;
      |b| == 10 + |BlkReads(x, 0, len)| &&
      Upcoming(b, 0, L2cSend(x, SI5338_ADDR, I2C_SR_START + I2C_SR_WRITE)) && b[3] == AckCheck(x) &&
      Upcoming(b, 4, L2cSend(x, addr, I2C_SR_WRITE + I2C_SR_STOP)) &&
      Upcoming(b, 7, L2cSend(x, SI5338_ADDR + I2C_DAT_DDIR, I2C_SR_START + I2C_SR_WRITE)) &&
      Upcoming(b, 10, BlkReads(x, 0, len))
  {
    var x := L2cSlave(num);
    var a := L2cAddress(x, addr, I2C_SR_WRITE + I2C_SR_STOP);
    var s := L2cSend(x, SI5338_ADDR + I2C_DAT_DDIR, I2C_SR_START + I2C_SR_WRITE);
    var b := L2cBlkReadFrame(num, addr, len).body;
    assert b == a + s + BlkReads(x, 0, len);
    assert Upcoming(b, 0, b);
    Split(b, 0, a + s, BlkReads(x, 0, len));
  }

  /** The parts of L2CBlkWrite's script, in order. */
  lemma L2cBlkWriteShape(num: int, addr: int, buf: seq<int>)
    ensures var x, b := L2cSlave(num), L2cBlkWriteFrame(num, addr, buf).body;
      |b| == 7 + |BlkWrites(x, buf, 0)| &&
      Upcoming(b, 0, L2cSend(x, SI5338_ADDR, I2C_SR_START + I2C_SR_WRITE)) && b[3] == AckCheck(x) &&
      Upcoming(b, 4, L2cSend(x, addr, I2C_SR_WRITE)) &&
      Upcoming(b, 7, BlkWrites(x, buf, 0))
  {
    var x := L2cSlave(num);
    var a := L2cAddress(x, addr, I2C_SR_WRITE);
    var b := L2cBlkWriteFrame(num, addr, buf).body;
    assert Upcoming(b, 0, b);
    Split(b, 0, a, BlkWrites(x, buf, 0));
  }

  /** Byte `j` of a block read and those after it follow the first `j` in its script. */
  lemma {:induction false} ReadsFrom(b: seq<Step>, k: int, x: int, len: int, j: nat)
    requires Upcoming(b, k, BlkReads(x, 0, len)) && j <= len
    ensures Upcoming(b, k + 3 * j, BlkReads(x, j, len))
  {
    if j > 0 {
      ReadsFrom(b, k, x, len, j - 1);
      ReadsNext(b, k + 3 * (j - 1), x, len, j - 1);
    }
  }

  /** Past byte `j` of a block read, the script reads the bytes after it. */
  lemma ReadsNext(b: seq<Step>, i: int, x: int, len: int, j: nat)
    requires Upcoming(b, i, BlkReads(x, j, len)) && j < len
    ensures Upcoming(b, i + 3, BlkReads(x, j + 1, len))
  {
    var p := L2cIssue(x, BlkReadCmd(j, len)) + [IcxGet(x + ICX_SLAVE_I2C_DAT)];
    Split(b, i, p, BlkReads(x, j + 1, len));
  }

  /** Byte `j` of a block write and those after it follow the first `j` in its script. */
  lemma {:induction false} WritesFrom(b: seq<Step>, k: int, x: int, buf: seq<int>, j: nat)
    requires Upcoming(b, k, BlkWrites(x, buf, 0)) && j <= |buf|
    ensures Upcoming(b, k + 3 * j, BlkWrites(x, buf, j))
  {
    if j > 0 {
      WritesFrom(b, k, x, buf, j - 1);
      WritesNext(b, k + 3 * (j - 1), x, buf, j - 1);
    }
  }

  /** Past byte `j` of a block write, the script writes the bytes after it. */
  lemma WritesNext(b: seq<Step>, i: int, x: int, buf: seq<int>, j: nat)
    requires Upcoming(b, i, BlkWrites(x, buf, j)) && j < |buf|
    ensures Upcoming(b, i + 3, BlkWrites(x, buf, j + 1))
  {
    Split(b, i, L2cSend(x, buf[j], BlkWriteCmd(j, |buf|)), BlkWrites(x, buf, j + 1));
  }

  /** The parts of ADCRead's script. */
  lemma AdcReadShape(num: int, addr: int)
    ensures var b := AdcReadFrame(num, addr).body;
      |b| == 7 && Upcoming(b, 0, Puts(AdcReadPuts(num, addr), -1)) && b[6] == IcxGet(AdcXil(num) + ICX_SLAVE_SPI_DAT)
  {
    var b := AdcReadFrame(num, addr).body;
    assert Upcoming(b, 0, b);
    Split(b, 0, Puts(AdcReadPuts(num, addr), -1), [IcxGet(AdcXil(num) + ICX_SLAVE_SPI_DAT)]);
  }
}
