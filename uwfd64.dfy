/*
 * The module-control object: one UWFD64 digitizer reached through its A16,
 * A32 and A64 windows.  Every bus routine of the library is a method here;
 * its contract says that what it did on the bus is a run of its script
 * (module Protocols) that returns the value the method returns.
 */
module Uwfd64 {
  import opened RegMap
  import opened Script
  import opened Protocols
  import opened Hardware
  import opened Config
  import opened Fifo
  import opened Endings

  // ---------------------------------------------------------------- port accesses, one script step each

  /** Stores `v` into register `r` of port `p` as the next step of the script followed by `c`. */
  method Send(p: SerialPort, r: PortReg, v: int, ghost c: Cursor) returns (ghost c': Cursor)
    requires At(c, p.trace) && c.k < |c.body| && c.body[c.k] == Put(p.bus, r, v)
    modifies p
    ensures p.trace == old(p.trace) + [Ev(PortWr(p.bus, r, v), 0)] && p.answers == old(p.answers)
    ensures At(c', p.trace) && c'.k == c.k + 1 && c'.body == c.body && c'.t0 == c.t0 && c'.st0 == c.st0
    ensures c'.o.st == c.o.st
  {
    ghost var t := p.trace;
    p.Store(r, v);
    ghost var e := Ev(PortWr(p.bus, r, v), 0);
    DoTx(c.body[c.k], e, c.o.st);
    Stepped(c, t, [e], DoOutcome(c.body[c.k], 0, 1, c.o.st));
    c' := Next(c, t, [e], DoOutcome(c.body[c.k], 0, 1, c.o.st));
  }

  /** Loads register `r` of port `p` and keeps the value, as the next step of the script followed by `c`. */
  method Fetch(p: SerialPort, r: PortReg, ghost c: Cursor) returns (v: int, ghost c': Cursor)
    requires At(c, p.trace) && c.k < |c.body| && c.body[c.k] == Get(p.bus, r)
    modifies p
    ensures p.trace == old(p.trace) + [Ev(PortRd(p.bus, r), v)]
    ensures At(c', p.trace) && c'.k == c.k + 1 && c'.body == c.body && c'.t0 == c.t0 && c'.st0 == c.st0
    ensures c'.o.st == c.o.st.(kept := c.o.st.kept + [v])
  {
    ghost var t := p.trace;
    v := p.Load(r);
    ghost var e := Ev(PortRd(p.bus, r), v);
    DoTx(c.body[c.k], e, c.o.st);
    Stepped(c, t, [e], DoOutcome(c.body[c.k], v, 1, c.o.st));
    c' := Next(c, t, [e], DoOutcome(c.body[c.k], v, 1, c.o.st));
  }

  /**
   * Polls the CSR of port `p` until the bits of `mask` clear, at most `limit`
   * times, as the next step of the script followed by `c`; when they never
   * clear, the script has returned -10.
   */
  method Wait(p: SerialPort, mask: nat, limit: nat, ghost c: Cursor) returns (ready: bool, ghost c': Cursor)
    requires At(c, p.trace) && c.k < |c.body| && 0 < limit
    requires c.body[c.k] == Poll(Tx(PortRd(p.bus, Csr), Lit), AnySet(mask), limit, -10)
    modifies p
    ensures Grows(old(p.trace), p.trace)
    ensures c'.k == c.k + 1 && c'.body == c.body && c'.t0 == c.t0 && c'.st0 == c.st0
    ensures Ran(c', p.trace) && c'.o.stopped == !ready
    ensures ready ==> c'.o.st == c.o.st
    ensures !ready ==> c'.o.code == -10
  {
    ghost var t := p.trace;
    ghost var d: seq<Ev> := [];
    var i := 0;
    while i < limit
      invariant i <= limit && |d| == i
      invariant p.trace == t + d
      invariant forall j :: 0 <= j < |d| ==> d[j].req == PortRd(p.bus, Csr) && Holds(AnySet(mask), d[j].res)
    {
      var v := p.Load(Csr);
      d := d + [Ev(PortRd(p.bus, Csr), v)];
      assert p.trace == t + d;
      if And(v, mask) == 0 {
        break;
      }
      i := i + 1;
    }
    ready := i < limit;
    c' := Polled(c, t, d, ready);
  }

  /** Sends one SPI byte through port `p` and waits for the shift to finish: the next two steps of the script. */
  method SpiByte(p: SerialPort, v: int, ghost c: Cursor) returns (ready: bool, ghost c': Cursor)
    requires At(c, p.trace) && c.k + 1 < |c.body|
    requires c.body[c.k] == Put(p.bus, Dat, v) && c.body[c.k + 1] == SpiWait(p.bus)
    modifies p
    ensures Grows(old(p.trace), p.trace)
    ensures c'.k == c.k + 2 && c'.body == c.body && c'.t0 == c.t0 && c'.st0 == c.st0
    ensures Ran(c', p.trace) && c'.o.stopped == !ready
    ensures ready ==> c'.o.st == c.o.st
    ensures !ready ==> c'.o.code == -10
  {
    c' := Send(p, Dat, v, c);
    ready, c' := Wait(p, SPI_CSR_BUSY, SPI_TIMEOUT, c');
  }

  /** Sends two SPI bytes through port `p`, each followed by its wait: the next four steps of the script. */
  method SpiBytes(p: SerialPort, v1: int, v2: int, ghost c: Cursor) returns (ready: bool, ghost c': Cursor)
    requires At(c, p.trace) && c.k + 3 < |c.body|
    requires c.body[c.k] == Put(p.bus, Dat, v1) && c.body[c.k + 1] == SpiWait(p.bus)
    requires c.body[c.k + 2] == Put(p.bus, Dat, v2) && c.body[c.k + 3] == SpiWait(p.bus)
    modifies p
    ensures Grows(old(p.trace), p.trace)
    ensures c'.body == c.body && c'.t0 == c.t0 && c'.st0 == c.st0
    ensures Ran(c', p.trace) && c'.o.stopped == !ready
    ensures ready ==> c'.k == c.k + 4 && c'.o.st == c.o.st
    ensures !ready ==> c'.o.code == -10
  {
    ready, c' := SpiByte(p, v1, c);
    if ready {
      ready, c' := SpiByte(p, v2, c');
    }
  }

  /** Clocks one SPI byte in through port `p` and reads it: the next three steps of the script. */
  method SpiClock(p: SerialPort, ghost c: Cursor) returns (ready: bool, v: int, ghost c': Cursor)
    requires At(c, p.trace) && c.k + 2 < |c.body|
    requires c.body[c.k] == Put(p.bus, Dat, 0) && c.body[c.k + 1] == SpiWait(p.bus) && c.body[c.k + 2] == Get(p.bus, Dat)
    modifies p
    ensures Grows(old(p.trace), p.trace)
    ensures c'.body == c.body && c'.t0 == c.t0 && c'.st0 == c.st0
    ensures Ran(c', p.trace) && c'.o.stopped == !ready
    ensures ready ==> c'.k == c.k + 3 && c'.o.st == c.o.st.(kept := c.o.st.kept + [v])
    ensures !ready ==> c'.o.code == -10
  {
    ready, c' := SpiByte(p, 0, c);
    v := 0;
    if ready {
      v, c' := Fetch(p, Dat, c');
    }
  }

  /** Clocks two SPI bytes in through port `p`, high byte first: the next six steps of the script. */
  method SpiWord(p: SerialPort, ghost c: Cursor) returns (ready: bool, hi: int, lo: int, ghost c': Cursor)
    requires At(c, p.trace) && c.k + 5 < |c.body|
    requires c.body[c.k] == Put(p.bus, Dat, 0) && c.body[c.k + 1] == SpiWait(p.bus) && c.body[c.k + 2] == Get(p.bus, Dat)
    requires c.body[c.k + 3] == Put(p.bus, Dat, 0) && c.body[c.k + 4] == SpiWait(p.bus) && c.body[c.k + 5] == Get(p.bus, Dat)
    modifies p
    ensures Grows(old(p.trace), p.trace)
    ensures c'.body == c.body && c'.t0 == c.t0 && c'.st0 == c.st0
    ensures Ran(c', p.trace) && c'.o.stopped == !ready
    ensures ready ==> c'.k == c.k + 6 && c'.o.st == c.o.st.(kept := c.o.st.kept + [hi, lo])
    ensures ready ==> Return(HiLo, c'.o.st) == Byte(hi) * 256 + Byte(lo)
    ensures !ready ==> c'.o.code == -10
  {
    lo := 0;
    ready, hi, c' := SpiClock(p, c);
    if ready {
      ready, lo, c' := SpiClock(p, c');
    }
  }

  /** Turns the SPI direction of port `p` to input and clocks two bytes in: the next seven steps of the script. */
  method SpiTurnWord(p: SerialPort, ghost c: Cursor) returns (ready: bool, hi: int, lo: int, ghost c': Cursor)
    requires At(c, p.trace) && c.k + 6 < |c.body| && c.body[c.k] == Put(p.bus, Csr, SPI_CSR_CS + SPI_CSR_DIR)
    requires c.body[c.k + 1] == Put(p.bus, Dat, 0) && c.body[c.k + 2] == SpiWait(p.bus) && c.body[c.k + 3] == Get(p.bus, Dat)
    requires c.body[c.k + 4] == Put(p.bus, Dat, 0) && c.body[c.k + 5] == SpiWait(p.bus) && c.body[c.k + 6] == Get(p.bus, Dat)
    modifies p
    ensures Grows(old(p.trace), p.trace)
    ensures c'.body == c.body && c'.t0 == c.t0 && c'.st0 == c.st0
    ensures Ran(c', p.trace) && c'.o.stopped == !ready
    ensures ready ==> c'.k == c.k + 7 && Return(HiLo, c'.o.st) == Byte(hi) * 256 + Byte(lo)
    ensures !ready ==> c'.o.code == -10
  {
    c' := Send(p, Csr, SPI_CSR_CS + SPI_CSR_DIR, c);
    ready, hi, lo, c' := SpiWord(p, c');
  }

  /** Ends an SPI frame on port `p` by deselecting the slave, which the frame `f` does on every path. */
  method Deselect(p: SerialPort, ghost f: Frame, ghost c: Cursor)
    requires Over(c, p.trace) && c.body == f.body && c.st0 == State(0, [], 0)
    requires f.cleanup == Always(PortWr(p.bus, Csr, 0))
    modifies p
    ensures Grows(c.t0, p.trace) && Completes(f, Since(c.t0, p.trace), 0, Returned(c, f.ret))
  {
    ghost var t := p.trace;
    p.Store(Csr, 0);
    Finished(f, c, t, [Ev(PortWr(p.bus, Csr, 0), 0)]);
  }

  /** Puts `v` on the I2C data register of port `p`, issues command `cmd` and waits: the next three steps of the script. */
  method I2cSend(p: SerialPort, v: int, cmd: int, ghost c: Cursor) returns (ready: bool, ghost c': Cursor)
    requires At(c, p.trace) && c.k + 2 < |c.body|
    requires c.body[c.k] == Put(p.bus, Dat, v) && c.body[c.k + 1] == Put(p.bus, Csr, cmd) && c.body[c.k + 2] == I2cWait
    requires p.bus == I2cBus
    modifies p
    ensures Grows(old(p.trace), p.trace)
    ensures c'.body == c.body && c'.t0 == c.t0 && c'.st0 == c.st0
    ensures Ran(c', p.trace) && c'.o.stopped == !ready
    ensures ready ==> c'.k == c.k + 3 && c'.o.st == c.o.st
    ensures !ready ==> c'.o.code == -10
  {
    c' := Send(p, Dat, v, c);
    c' := Send(p, Csr, cmd, c');
    ready, c' := Wait(p, I2C_SR_TRANSFER_IN_PRG, I2C_TIMEOUT, c');
  }

  /** Two I2C byte transfers on port `p`, each with its command and wait: the next six steps of the script. */
  method I2cSendPair(p: SerialPort, v1: int, cmd1: int, v2: int, cmd2: int, ghost c: Cursor) returns (ready: bool, ghost c': Cursor)
    requires At(c, p.trace) && c.k + 5 < |c.body| && p.bus == I2cBus
    requires c.body[c.k] == Put(I2cBus, Dat, v1) && c.body[c.k + 1] == Put(I2cBus, Csr, cmd1) && c.body[c.k + 2] == I2cWait
    requires c.body[c.k + 3] == Put(I2cBus, Dat, v2) && c.body[c.k + 4] == Put(I2cBus, Csr, cmd2) && c.body[c.k + 5] == I2cWait
    modifies p
    ensures Grows(old(p.trace), p.trace)
    ensures c'.body == c.body && c'.t0 == c.t0 && c'.st0 == c.st0
    ensures Ran(c', p.trace) && c'.o.stopped == !ready
    ensures ready ==> c'.k == c.k + 6 && c'.o.st == c.o.st
    ensures !ready ==> c'.o.code == -10
  {
    ready, c' := I2cSend(p, v1, cmd1, c);
    if ready {
      ready, c' := I2cSend(p, v2, cmd2, c');
    }
  }

  /** Issues read command `cmd` on the I2C port `p`, waits and reads the byte received: the next three steps of the script. */
  method I2cReceive(p: SerialPort, cmd: int, ghost c: Cursor) returns (ready: bool, v: int, ghost c': Cursor)
    requires At(c, p.trace) && c.k + 2 < |c.body|
    requires c.body[c.k] == Put(p.bus, Csr, cmd) && c.body[c.k + 1] == I2cWait && c.body[c.k + 2] == Get(p.bus, Dat)
    requires p.bus == I2cBus
    modifies p
    ensures Grows(old(p.trace), p.trace)
    ensures c'.body == c.body && c'.t0 == c.t0 && c'.st0 == c.st0
    ensures Ran(c', p.trace) && c'.o.stopped == !ready
    ensures ready ==> c'.k == c.k + 3 && c'.o.st == c.o.st.(kept := c.o.st.kept + [v])
    ensures !ready ==> c'.o.code == -10
  {
    c' := Send(p, Csr, cmd, c);
    ready, c' := Wait(p, I2C_SR_TRANSFER_IN_PRG, I2C_TIMEOUT, c');
    v := 0;
    if ready {
      v, c' := Fetch(p, Dat, c');
    }
  }

  /** Receives two bytes on the I2C port `p`, the second with STOP: the next six steps of the script. */
  method I2cWord(p: SerialPort, ghost c: Cursor) returns (ready: bool, hi: int, lo: int, ghost c': Cursor)
    requires At(c, p.trace) && c.k + 5 < |c.body| && p.bus == I2cBus
    requires c.body[c.k] == Put(I2cBus, Csr, I2C_SR_READ) && c.body[c.k + 1] == I2cWait && c.body[c.k + 2] == Get(I2cBus, Dat)
    requires c.body[c.k + 3] == Put(I2cBus, Csr, I2C_SR_READ + I2C_SR_STOP + I2C_SR_ACK)
    requires c.body[c.k + 4] == I2cWait && c.body[c.k + 5] == Get(I2cBus, Dat)
    modifies p
    ensures Grows(old(p.trace), p.trace)
    ensures c'.body == c.body && c'.t0 == c.t0 && c'.st0 == c.st0
    ensures Ran(c', p.trace) && c'.o.stopped == !ready
    ensures ready ==> c'.k == c.k + 6 && c'.o.st == c.o.st.(kept := c.o.st.kept + [hi, lo])
    ensures !ready ==> c'.o.code == -10
  {
    lo := 0;
    ready, hi, c' := I2cReceive(p, I2C_SR_READ, c);
    if ready {
      ready, lo, c' := I2cReceive(p, I2C_SR_READ + I2C_SR_STOP + I2C_SR_ACK, c');
    }
  }

  /** Restarts the CDCUN transfer for reading and receives two bytes on the I2C port `p`: the next nine steps of the script. */
  method I2cRestartWord(p: SerialPort, ghost c: Cursor) returns (ready: bool, hi: int, lo: int, ghost c': Cursor)
    requires At(c, p.trace) && c.k + 8 < |c.body| && p.bus == I2cBus
    requires c.body[c.k] == Put(I2cBus, Dat, CDCUN_ADDR + I2C_DAT_DDIR)
    requires c.body[c.k + 1] == Put(I2cBus, Csr, I2C_SR_START + I2C_SR_WRITE) && c.body[c.k + 2] == I2cWait
    requires c.body[c.k + 3] == Put(I2cBus, Csr, I2C_SR_READ) && c.body[c.k + 4] == I2cWait && c.body[c.k + 5] == Get(I2cBus, Dat)
    requires c.body[c.k + 6] == Put(I2cBus, Csr, I2C_SR_READ + I2C_SR_STOP + I2C_SR_ACK)
    requires c.body[c.k + 7] == I2cWait && c.body[c.k + 8] == Get(I2cBus, Dat)
    modifies p
    ensures Grows(old(p.trace), p.trace)
    ensures c'.body == c.body && c'.t0 == c.t0 && c'.st0 == c.st0
    ensures Ran(c', p.trace) && c'.o.stopped == !ready
    ensures ready ==> c'.k == c.k + 9 && c'.o.st == c.o.st.(kept := c.o.st.kept + [hi, lo])
    ensures ready ==> Return(HiLo, c'.o.st) == Byte(hi) * 256 + Byte(lo)
    ensures !ready ==> c'.o.code == -10
  {
    hi, lo := 0, 0;
    ready, c' := I2cSend(p, CDCUN_ADDR + I2C_DAT_DDIR, I2C_SR_START + I2C_SR_WRITE, c);
    if ready {
      ready, hi, lo, c' := I2cWord(p, c');
    }
  }

  /** Ends an I2C transaction on port `p` as frame `f` does: a STOP after a failure, nothing after success. */
  method Release(p: SerialPort, ready: bool, ghost f: Frame, ghost c: Cursor)
    requires Over(c, p.trace) && c.body == f.body && c.st0 == State(0, [], 0) && c.o.stopped == !ready
    requires f.cleanup == OnStop(PortWr(p.bus, Csr, I2C_SR_STOP))
    modifies p
    ensures Grows(c.t0, p.trace) && Completes(f, Since(c.t0, p.trace), 0, Returned(c, f.ret))
  {
    ghost var t := p.trace;
    if !ready {
      p.Store(Csr, I2C_SR_STOP);
      Finished(f, c, t, [Ev(PortWr(p.bus, Csr, I2C_SR_STOP), 0)]);
    } else {
      Finished(f, c, t, []);
      assert t + [] == t;
    }
  }

  /** The value a frame returning `HiLo` reports once over: the word read, or the timeout code. */
  lemma WordReturned(c: Cursor, ready: bool, hi: int, lo: int)
    requires c.o.stopped == !ready
    requires ready ==> Return(HiLo, c.o.st) == Byte(hi) * 256 + Byte(lo)
    requires !ready ==> c.o.code == -10
    ensures Returned(c, HiLo) == if ready then Byte(hi) * 256 + Byte(lo) else -10
  {
  }

  /** `buf` starts with the values kept by a block read, each truncated to a `char`. */
  ghost predicate Filled(buf: array<int>, kept: seq<int>)
    reads buf
  {
    |kept| <= buf.Length && forall i :: 0 <= i < |kept| ==> buf[i] == Char(kept[i])
  }

  // ---------------------------------------------------------------- the module object

  class Module {
    const serial: int
    const ga: int
    const a16: A16Regs
    const a32: A32Regs
    const dma: Dma
    /** The transactions made through the bus primitives, with their return codes. */
    const log: Journal
    /** The configuration the module is set up with. */
    var conf: Conf

    /** The three serial ports are distinct objects on their own buses. */
    predicate Valid()
    {
      a32.icx.bus == IcxBus && a32.dac.bus == DacBus && a32.i2c.bus == I2cBus &&
      a32.icx != a32.dac && a32.icx != a32.i2c && a32.dac != a32.i2c
    }

    /**
     * Builds the object for the module with serial number `serial` in slot
     * `ga`: the configuration starts empty with a one-block FIFO, takes the
     * settings of `cnf` when there is one, and the CPLD is told the slot
     * with a parity bit that makes the count of ones in GA[4:0] and parity odd.
     */
    constructor (serial: int, ga: int, a16: A16Regs, a32: A32Regs, dma: Dma, log: Journal, cnf: Option<ConfigFile>)
      modifies a16
      ensures this.serial == serial && this.ga == ga && this.a16 == a16 && this.a32 == a32
      ensures this.dma == dma && this.log == log
      ensures conf == if cnf.Some? then Configured(Initial(), cnf.value, serial) else Initial()
      ensures InRange(conf)
      ensures a16.c2x == C2xWord(ga, GaParity(ga)) && a16.snum == old(a16.snum)
    {
      this.serial, this.ga, this.a16, this.a32, this.dma, this.log := serial, ga, a16, a32, dma, log;
      conf := Initial();
      new;
      InitialInRange();
      if cnf.Some? {
        ReadConfig(cnf.value);
      }
      var s := ParityOf(ga);
      a16.c2x := C2xWord(ga, s);
    }

    /** The parity bit of the geographic address, counted bit by bit over GA[4:0] as the constructor does. */
    static method ParityOf(ga: int) returns (s: int)
      ensures s == GaParity(ga)
      ensures s in {0, 1} && (Ones(ga, 5) + s) % 2 == 1
    {
      s := 0;
      var i := 0;
      while i < 5
        invariant 0 <= i <= 5 && s == Ones(ga, i)
      {
        if And(ga, Pow2(i)) != 0 {
          s := s + 1;
        }
        i := i + 1;
      }
      s := 1 - s % 2;
    }

    /**
     * ReadConfig: reads the settings of the default section, then those of
     * the module's own section, over the configuration held.
     */
    method ReadConfig(cnf: ConfigFile)
      modifies this`conf
      ensures conf == Configured(old(conf), cnf, serial)
      ensures InRange(old(conf)) ==> InRange(conf)
    {
      var i := 0;
      while i < 2
        invariant 0 <= i <= 2
        invariant conf == if i == 0 then old(conf) else if i == 1 then ReadSection(old(conf), cnf, Section(0, serial))
                          else Configured(old(conf), cnf, serial)
      {
        conf := ReadSection(conf, cnf, Section(i, serial));
        i := i + 1;
      }
    }

    /** IsHere: whether the CPLD at the module's A16 address reports the module's serial number. */
    method IsHere() returns (here: bool)
      ensures here <==> HighByte(a16.snum) == serial
    {
      var rc := And(a16.snum / 256, 0xFF);
      here := rc == serial;
    }

    /** ICXWrite: writes the 16-bit register `addr` of the slave Xilinxes; 0, or -10 on an SPI timeout. */
    method ICXWrite(addr: int, val: int) returns (rc: int)
      requires Valid()
      modifies a32.icx, log
      ensures Grows(old(a32.icx.trace), a32.icx.trace)
      ensures Completes(IcxWriteFrame(addr, val), Since(old(a32.icx.trace), a32.icx.trace), 0, rc)
      ensures SpiClosed(Since(old(a32.icx.trace), a32.icx.trace), IcxBus, rc) && (rc == 0 || rc == -10)
      ensures log.tx == old(log.tx) + [Ev(IcxWr(addr, val), rc)]
    {
      var p := a32.icx;
      ghost var f := IcxWriteFrame(addr, val);
      ghost var c := Cursor(f.body, 0, p.trace, State(0, [], 0), Outcome(false, 0, 0, State(0, [], 0)));
      Start(f.body, p.trace, State(0, [], 0));
      var ready;
      c := Send(p, Csr, SPI_CSR_CS, c);
      ready, c := SpiBytes(p, WriteAddrHi(addr), Lo(addr), c);
      if ready {
        ready, c := SpiBytes(p, Hi(val), Lo(val), c);
      }
      Deselect(p, f, c);
      rc := if ready then 0 else -10;
      IcxWriteCloses(addr, val, Since(old(p.trace), p.trace), rc);
      log.tx := log.tx + [Ev(IcxWr(addr, val), rc)];
    }

    /** ICXRead: reads the 16-bit register `addr` of the slave Xilinxes; the value, or -10 on an SPI timeout. */
    method ICXRead(addr: int) returns (rc: int)
      requires Valid()
      modifies a32.icx, log
      ensures Grows(old(a32.icx.trace), a32.icx.trace)
      ensures Completes(IcxReadFrame(addr), Since(old(a32.icx.trace), a32.icx.trace), 0, rc)
      ensures SpiClosed(Since(old(a32.icx.trace), a32.icx.trace), IcxBus, rc) && (rc == -10 || 0 <= rc < 0x1_0000)
      ensures log.tx == old(log.tx) + [Ev(IcxRd(addr), rc)]
    {
      var p := a32.icx;
      ghost var f := IcxReadFrame(addr);
      ghost var c := Cursor(f.body, 0, p.trace, State(0, [], 0), Outcome(false, 0, 0, State(0, [], 0)));
      Start(f.body, p.trace, State(0, [], 0));
      var ready;
      var hi, lo := 0, 0;
      c := Send(p, Csr, SPI_CSR_CS, c);
      ready, c := SpiBytes(p, ReadAddrHi(addr), Lo(addr), c);
      if ready {
        ready, hi, lo, c := SpiTurnWord(p, c);
      }
      WordReturned(c, ready, hi, lo);
      Deselect(p, f, c);
      rc := if ready then Byte(hi) * 256 + Byte(lo) else -10;
      IcxReadCloses(addr, Since(old(p.trace), p.trace), rc);
      log.tx := log.tx + [Ev(IcxRd(addr), rc)];
    }

    /** DACSet: sends the 14-bit offset value to the common DAC; 0, or -10 on an SPI timeout. */
    method DACSet(val: int) returns (rc: int)
      requires Valid()
      modifies a32.dac, log
      ensures Grows(old(a32.dac.trace), a32.dac.trace)
      ensures Completes(DacFrame(val), Since(old(a32.dac.trace), a32.dac.trace), 0, rc)
      ensures SpiClosed(Since(old(a32.dac.trace), a32.dac.trace), DacBus, rc) && (rc == 0 || rc == -10)
      ensures log.tx == old(log.tx) + [Ev(DacSet(val), rc)]
    {
      var p := a32.dac;
      ghost var f := DacFrame(val);
      ghost var c := Cursor(f.body, 0, p.trace, State(0, [], 0), Outcome(false, 0, 0, State(0, [], 0)));
      Start(f.body, p.trace, State(0, [], 0));
      var ready;
      c := Send(p, Csr, SPI_CSR_CS, c);
      ready, c := SpiBytes(p, (val / 256) % 64, Lo(val), c);
      Deselect(p, f, c);
      rc := if ready then 0 else -10;
      DacCloses(val, Since(old(p.trace), p.trace), rc);
      log.tx := log.tx + [Ev(DacSet(val), rc)];
    }

    /** I2CRead: reads the 16-bit register `addr` of the CDCUN clock multiplexer; the value, or -10 on a timeout. */
    method I2CRead(addr: int) returns (rc: int)
      requires Valid()
      modifies a32.i2c, log
      ensures Grows(old(a32.i2c.trace), a32.i2c.trace)
      ensures Completes(I2cReadFrame(addr), Since(old(a32.i2c.trace), a32.i2c.trace), 0, rc)
      ensures I2cClosed(Since(old(a32.i2c.trace), a32.i2c.trace), rc, I2C_SR_READ + I2C_SR_STOP + I2C_SR_ACK) && (rc == -10 || 0 <= rc < 0x1_0000)
      ensures log.tx == old(log.tx) + [Ev(I2cRd(addr), rc)]
    {
      var p := a32.i2c;
      ghost var f := I2cReadFrame(addr);
      ghost var c := Cursor(f.body, 0, p.trace, State(0, [], 0), Outcome(false, 0, 0, State(0, [], 0)));
      Start(f.body, p.trace, State(0, [], 0));
      var ready;
      var hi, lo := 0, 0;
      ready, c := I2cSendPair(p, CDCUN_ADDR, I2C_SR_START + I2C_SR_WRITE, addr % 128, I2C_SR_WRITE, c);
      if ready {
        ready, hi, lo, c := I2cRestartWord(p, c);
      }
      WordReturned(c, ready, hi, lo);
      Release(p, ready, f, c);
      rc := if ready then Byte(hi) * 256 + Byte(lo) else -10;
      I2cReadCloses(addr, Since(old(p.trace), p.trace), rc);
      log.tx := log.tx + [Ev(I2cRd(addr), rc)];
    }

    /** I2CWrite: writes the 16-bit register `addr` of the CDCUN clock multiplexer; 0, or -10 on a timeout. */
    method I2CWrite(addr: int, val: int) returns (rc: int)
      requires Valid()
      modifies a32.i2c, log
      ensures Grows(old(a32.i2c.trace), a32.i2c.trace)
      ensures Completes(I2cWriteFrame(addr, val), Since(old(a32.i2c.trace), a32.i2c.trace), 0, rc)
      ensures I2cClosed(Since(old(a32.i2c.trace), a32.i2c.trace), rc, I2C_SR_WRITE + I2C_SR_STOP) && (rc == 0 || rc == -10)
      ensures log.tx == old(log.tx) + [Ev(I2cWr(addr, val), rc)]
    {
      var p := a32.i2c;
      ghost var f := I2cWriteFrame(addr, val);
      ghost var c := Cursor(f.body, 0, p.trace, State(0, [], 0), Outcome(false, 0, 0, State(0, [], 0)));
      Start(f.body, p.trace, State(0, [], 0));
      var ready;
      ready, c := I2cSendPair(p, CDCUN_ADDR, I2C_SR_START + I2C_SR_WRITE, addr % 128, I2C_SR_WRITE, c);
      if ready {
        ready, c := I2cSendPair(p, Hi(val), I2C_SR_WRITE, Lo(val), I2C_SR_WRITE + I2C_SR_STOP, c);
      }
      Release(p, ready, f, c);
      rc := if ready then 0 else -10;
      I2cWriteCloses(addr, val, Since(old(p.trace), p.trace), rc);
      log.tx := log.tx + [Ev(I2cWr(addr, val), rc)];
    }
  
    // ------------------------------------------------------------ ICX calls, one script step each

    /**
     * Makes the ICX call `q` as the next step of the script followed by `c`,
     * a `Do` step over the ICX call log.
     */
    method IcxStep(q: Req, ghost c: Cursor) returns (rc: int, ghost c': Cursor)
      requires Valid() && At(c, log.tx) && c.k < |c.body| && (q.IcxWr? || q.IcxRd?)
      requires c.body[c.k].Do? && c.body[c.k].act.Tx? && !c.body[c.k].echo
      requires Issued(c.body[c.k].act.req, c.body[c.k].act.val, c.o.st) == q
      modifies a32.icx, log
      ensures log.tx == old(log.tx) + [Ev(q, rc)]
      ensures c'.k == c.k + 1 && c'.body == c.body && c'.t0 == c.t0 && c'.st0 == c.st0
      ensures Ran(c', log.tx) && c'.o.stopped == Holds(c.body[c.k].fail, rc)
      ensures c'.o.stopped ==> c'.o.code == if c.body[c.k].rc.Fixed? then c.body[c.k].rc.c else rc
      ensures c'.o.st == c.o.st.(kept := if c.body[c.k].keep then c.o.st.kept + [rc] else c.o.st.kept,
                                 tally := c.o.st.tally + TallyOf(c.body[c.k].tally, rc))
    {
      ghost var t := log.tx;
      if q.IcxWr? {
        rc := ICXWrite(q.addr, q.val);
      } else {
        rc := ICXRead(q.addr);
      }
      ghost var e := Ev(q, rc);
      ghost var o1 := DoOutcome(c.body[c.k], rc, 1, c.o.st);
      DoTx(c.body[c.k], e, c.o.st);
      Stepped(c, t, [e], o1);
      c' := Next(c, t, [e], o1);
    }

    /**
     * Polls ICX register `a` until `busy` fails, at most `limit` times, as the
     * next step of the script followed by `c`.
     */
    method IcxPoll(a: int, busy: Cond, limit: nat, ghost c: Cursor) returns (ready: bool, ghost c': Cursor)
      requires Valid() && At(c, log.tx) && c.k < |c.body| && 0 < limit
      requires c.body[c.k].Poll? && c.body[c.k].act == Tx(IcxRd(a), Lit)
      requires c.body[c.k].busy == busy && c.body[c.k].limit == limit
      modifies a32.icx, log
      ensures c'.k == c.k + 1 && c'.body == c.body && c'.t0 == c.t0 && c'.st0 == c.st0
      ensures Ran(c', log.tx) && c'.o.stopped == !ready
      ensures ready ==> c'.o.st == c.o.st
      ensures !ready ==> c'.o.code == c.body[c.k].code
    {
      ghost var t := log.tx;
      ghost var d: seq<Ev> := [];
      var i := 0;
      while i < limit
        invariant i <= limit && |d| == i
        invariant log.tx == t + d
        invariant forall j :: 0 <= j < |d| ==> d[j].req == IcxRd(a) && Holds(busy, d[j].res)
      {
        var v := ICXRead(a);
        d := d + [Ev(IcxRd(a), v)];
        assert log.tx == t + d;
        if !Holds(busy, v) {
          break;
        }
        i := i + 1;
      }
      ready := i < limit;
      c' := Polled(c, t, d, ready);
    }

    /**
     * Ends a routine whose clean-up is the ICX write `IcxWr(a, v)` made only
     * when it fails: `ready` tells whether it ran its whole script.
     */
    method Abandon(a: int, v: int, ready: bool, ghost f: Frame, ghost c: Cursor)
      requires Valid() && Over(c, log.tx) && c.body == f.body && c.st0 == State(c.st0.arg, [], 0)
      requires c.o.stopped == !ready && f.cleanup == OnStop(IcxWr(a, v))
      modifies a32.icx, log
      ensures Grows(c.t0, log.tx) && Completes(f, Since(c.t0, log.tx), c.st0.arg, Returned(c, f.ret))
      ensures ready ==> log.tx == old(log.tx)
    {
      ghost var t := log.tx;
      if !ready {
        var rc := ICXWrite(a, v);
        Finished(f, c, t, [Ev(IcxWr(a, v), rc)]);
      } else {
        Finished(f, c, t, []);
        assert t + [] == t;
      }
    }

    // ------------------------------------------------------------ I2C to the Si5338 through a slave Xilinx

    /** Sends command `cmd` on the I2C master of slave `x` and waits: the next two steps. */
    method L2cCommand(x: int, cmd: int, ghost c: Cursor) returns (ready: bool, ghost c': Cursor)
      requires Valid() && At(c, log.tx) && Upcoming(c.body, c.k, L2cIssue(x, cmd))
      modifies a32.icx, log
      ensures c'.body == c.body && c'.t0 == c.t0 && c'.st0 == c.st0
      ensures Ran(c', log.tx) && c'.o.stopped == !ready
      ensures ready ==> c'.k == c.k + 2 && c'.o.st == c.o.st
      ensures !ready ==> c'.o.code == -10
    {
      var rc;
      rc, c' := IcxStep(IcxWr(x + ICX_SLAVE_I2C_CSR, cmd), c);
      ready := rc == 0;
      if ready {
        ready, c' := IcxPoll(x + ICX_SLAVE_I2C_CSR, AnySet(I2C_SR_TRANSFER_IN_PRG), L2C_TIMEOUT, c');
      }
    }

    /** Puts `dat` on the I2C data register of slave `x`, sends it with command `cmd` and waits: the next three steps. */
    method L2cSendByte(x: int, dat: int, cmd: int, ghost c: Cursor) returns (ready: bool, ghost c': Cursor)
      requires Valid() && At(c, log.tx) && Upcoming(c.body, c.k, L2cSend(x, dat, cmd))
      modifies a32.icx, log
      ensures c'.body == c.body && c'.t0 == c.t0 && c'.st0 == c.st0
      ensures Ran(c', log.tx) && c'.o.stopped == !ready
      ensures ready ==> c'.k == c.k + 3 && c'.o.st == c.o.st
      ensures !ready ==> c'.o.code == -10
    {
      Split(c.body, c.k, [IcxPut(x + ICX_SLAVE_I2C_DAT, dat, -10)], L2cIssue(x, cmd));
      var rc;
      rc, c' := IcxStep(IcxWr(x + ICX_SLAVE_I2C_DAT, dat), c);
      ready := rc == 0;
      if ready {
        ready, c' := L2cCommand(x, cmd, c');
      }
    }

    /** Sends the Si5338 address with START on the I2C master of slave `x` and checks its acknowledge: the next four steps. */
    method L2cOpen(x: int, ghost c: Cursor) returns (ready: bool, ghost c': Cursor)
      requires Valid() && At(c, log.tx) && Upcoming(c.body, c.k, L2cSend(x, SI5338_ADDR, I2C_SR_START + I2C_SR_WRITE))
      requires c.k + 3 < |c.body| && c.body[c.k + 3] == AckCheck(x)
      modifies a32.icx, log
      ensures c'.body == c.body && c'.t0 == c.t0 && c'.st0 == c.st0
      ensures Ran(c', log.tx) && c'.o.stopped == !ready
      ensures ready ==> c'.k == c.k + 4 && c'.o.st == c.o.st
      ensures !ready ==> c'.o.code == -10
    {
      ready, c' := L2cSendByte(x, SI5338_ADDR, I2C_SR_START + I2C_SR_WRITE, c);
      if ready {
        var rc;
        rc, c' := IcxStep(IcxRd(x + ICX_SLAVE_I2C_CSR), c');
        ready := And(rc, I2C_SR_RXACK) == 0;
      }
    }

    /**
     * Restarts the Si5338 transfer for reading, reads one byte with STOP and
     * keeps it: the next six steps.
     */
    method L2cFetch(x: int, ghost c: Cursor) returns (ready: bool, v: int, ghost c': Cursor)
      requires Valid() && At(c, log.tx)
      requires Upcoming(c.body, c.k, L2cSend(x, SI5338_ADDR + I2C_DAT_DDIR, I2C_SR_START + I2C_SR_WRITE))
      requires Upcoming(c.body, c.k + 3, L2cIssue(x, I2C_SR_READ + I2C_SR_STOP + I2C_SR_ACK))
      requires c.k + 5 < |c.body| && c.body[c.k + 5] == IcxGet(x + ICX_SLAVE_I2C_DAT)
      modifies a32.icx, log
      ensures c'.body == c.body && c'.t0 == c.t0 && c'.st0 == c.st0
      ensures Ran(c', log.tx) && c'.o.stopped == !ready
      ensures ready ==> c'.k == c.k + 6 && Return(LastKept, c'.o.st) == v
      ensures !ready ==> c'.o.code == -10
    {
      v := 0;
      ready, c' := L2cSendByte(x, SI5338_ADDR + I2C_DAT_DDIR, I2C_SR_START + I2C_SR_WRITE, c);
      if ready {
        ready, c' := L2cCommand(x, I2C_SR_READ + I2C_SR_STOP + I2C_SR_ACK, c');
      }
      if ready {
        v, c' := IcxStep(IcxRd(x + ICX_SLAVE_I2C_DAT), c');
      }
    }

    /** Puts the low byte of the routine's argument `val` on the I2C data register of slave `x` and sends it with STOP: the next three steps. */
    method L2cSendArg(x: int, val: int, ghost c: Cursor) returns (ready: bool, ghost c': Cursor)
      requires Valid() && At(c, log.tx) && c.k < |c.body| && c.o.st.arg == val
      requires c.body[c.k] == Do(Tx(IcxWr(x + ICX_SLAVE_I2C_DAT, 0), FromArg(0xFF, 0)), NonZero, Fixed(-10), NoTally, false, false)
      requires Upcoming(c.body, c.k + 1, L2cIssue(x, I2C_SR_WRITE + I2C_SR_STOP))
      modifies a32.icx, log
      ensures c'.body == c.body && c'.t0 == c.t0 && c'.st0 == c.st0
      ensures Ran(c', log.tx) && c'.o.stopped == !ready
      ensures ready ==> c'.k == c.k + 3 && c'.o.st == c.o.st
      ensures !ready ==> c'.o.code == -10
    {
      var rc;
      rc, c' := IcxStep(IcxWr(x + ICX_SLAVE_I2C_DAT, Derive(0xFF, 0, val)), c);
      ready := rc == 0;
      if ready {
        ready, c' := L2cCommand(x, I2C_SR_WRITE + I2C_SR_STOP, c');
      }
    }

    /** L2CRead: reads register `addr` of the Si5338 on slave Xilinx `num & 3`; the byte, or -10 on a timeout or a missing acknowledge. */
    method L2CRead(num: int, addr: int) returns (rc: int)
      requires Valid()
      modifies a32.icx, log
      ensures Grows(old(log.tx), log.tx)
      ensures Completes(L2cReadFrame(num, addr), Since(old(log.tx), log.tx), 0, rc)
      ensures L2cReadEnds(Since(old(log.tx), log.tx), L2cSlave(num), rc)
    {
      var x := L2cSlave(num);
      ghost var f := L2cReadFrame(num, addr);
      ghost var c := Cursor(f.body, 0, log.tx, State(0, [], 0), Outcome(false, 0, 0, State(0, [], 0)));
      Start(f.body, log.tx, State(0, [], 0));
      L2cReadShape(num, addr);
      var ready, v := false, 0;
      ready, c := L2cOpen(x, c);
      if ready {
        ready, c := L2cSendByte(x, addr, I2C_SR_WRITE + I2C_SR_STOP, c);
      }
      if ready {
        ready, v, c := L2cFetch(x, c);
      }
      rc := if ready then v else -10;
      assert rc == Returned(c, LastKept);
      Abandon(x + ICX_SLAVE_I2C_CSR, I2C_SR_STOP, ready, f, c);
      L2cReadCloses(num, addr, Since(old(log.tx), log.tx), rc);
    }

    /** L2CWrite: writes `val & 0xFF` to register `addr` of the Si5338 on slave Xilinx `num & 3`; 0, or -10. */
    method L2CWrite(num: int, addr: int, val: int) returns (rc: int)
      requires Valid()
      modifies a32.icx, log
      ensures Grows(old(log.tx), log.tx)
      ensures Completes(L2cWriteFrame(num, addr), Since(old(log.tx), log.tx), val, rc)
      ensures var t, x := Since(old(log.tx), log.tx), L2cSlave(num);
        L2cClosed(t, x, I2C_SR_WRITE + I2C_SR_STOP) && (rc == 0 || rc == -10) && (rc == -10 <==> EndsWith(t, L2cStop(x)))
    {
      var x := L2cSlave(num);
      ghost var f := L2cWriteFrame(num, addr);
      ghost var c := Cursor(f.body, 0, log.tx, State(val, [], 0), Outcome(false, 0, 0, State(val, [], 0)));
      Start(f.body, log.tx, State(val, [], 0));
      L2cWriteShape(num, addr);
      var ready;
      ready, c := L2cOpen(x, c);
      if ready {
        ready, c := L2cSendByte(x, addr, I2C_SR_WRITE, c);
      }
      if ready {
        ready, c := L2cSendArg(x, val, c);
      }
      rc := if ready then 0 else -10;
      Abandon(x + ICX_SLAVE_I2C_CSR, I2C_SR_STOP, ready, f, c);
      L2cWriteCloses(num, addr, val, Since(old(log.tx), log.tx), rc);
    }

    /** Reads byte `j` of a block of `len` whose script starts at `k0`: the command for it, the wait, the read of the data register, kept. */
    method L2cReadByte(x: int, j: nat, len: int, ghost k0: int, ghost c: Cursor) returns (ready: bool, v: int, ghost c': Cursor)
      requires Valid() && At(c, log.tx) && j < len && Upcoming(c.body, k0, BlkReads(x, 0, len)) && c.k == k0 + 3 * j
      modifies a32.icx, log
      ensures c'.body == c.body && c'.t0 == c.t0 && c'.st0 == c.st0
      ensures Ran(c', log.tx) && c'.o.stopped == !ready
      ensures ready ==> c'.k == c.k + 3 && c'.o.st == c.o.st.(kept := c.o.st.kept + [v])
      ensures !ready ==> c'.o.code == -10
    {
      ReadsFrom(c.body, k0, x, len, j);
      Split(c.body, c.k, L2cIssue(x, BlkReadCmd(j, len)) + [IcxGet(x + ICX_SLAVE_I2C_DAT)], BlkReads(x, j + 1, len));
      Split(c.body, c.k, L2cIssue(x, BlkReadCmd(j, len)), [IcxGet(x + ICX_SLAVE_I2C_DAT)]);
      v := 0;
      ready, c' := L2cCommand(x, BlkReadCmd(j, len), c);
      if ready {
        v, c' := IcxStep(IcxRd(x + ICX_SLAVE_I2C_DAT), c');
      }
    }

    /** Writes byte `j` of `buf` in a block write whose script starts at `k0`: the next three steps. */
    method L2cWriteByte(x: int, buf: seq<int>, j: nat, ghost k0: int, ghost c: Cursor) returns (ready: bool, ghost c': Cursor)
      requires Valid() && At(c, log.tx) && j < |buf| && Upcoming(c.body, k0, BlkWrites(x, buf, 0)) && c.k == k0 + 3 * j
      modifies a32.icx, log
      ensures c'.body == c.body && c'.t0 == c.t0 && c'.st0 == c.st0
      ensures Ran(c', log.tx) && c'.o.stopped == !ready
      ensures ready ==> c'.k == c.k + 3 && c'.o.st == c.o.st
      ensures !ready ==> c'.o.code == -10
    {
      WritesFrom(c.body, k0, x, buf, j);
      Split(c.body, c.k, L2cSend(x, buf[j], BlkWriteCmd(j, |buf|)), BlkWrites(x, buf, j + 1));
      ready, c' := L2cSendByte(x, buf[j], BlkWriteCmd(j, |buf|), c);
    }

    /** Addresses register `addr` of the Si5338 with command `cmd` after the chip address and its acknowledge: the next seven steps. */
    method L2cSelect(x: int, addr: int, cmd: int, ghost c: Cursor) returns (ready: bool, ghost c': Cursor)
      requires Valid() && At(c, log.tx) && Upcoming(c.body, c.k, L2cSend(x, SI5338_ADDR, I2C_SR_START + I2C_SR_WRITE))
      requires c.k + 3 < |c.body| && c.body[c.k + 3] == AckCheck(x) && Upcoming(c.body, c.k + 4, L2cSend(x, addr, cmd))
      modifies a32.icx, log
      ensures c'.body == c.body && c'.t0 == c.t0 && c'.st0 == c.st0
      ensures Ran(c', log.tx) && c'.o.stopped == !ready
      ensures ready ==> c'.k == c.k + 7 && c'.o.st == c.o.st
      ensures !ready ==> c'.o.code == -10
    {
      ready, c' := L2cOpen(x, c);
      if ready {
        ready, c' := L2cSendByte(x, addr, cmd, c');
      }
    }

    /** Reads byte `j` of a block of `len` into `buf[j]`, truncated to a `char`: the next three steps. */
    method L2cReadInto(x: int, buf: array<int>, j: nat, len: int, ghost k0: int, ghost c: Cursor) returns (ready: bool, ghost c': Cursor)
      requires Valid() && At(c, log.tx) && j < len <= buf.Length && Upcoming(c.body, k0, BlkReads(x, 0, len)) && c.k == k0 + 3 * j
      requires |c.o.st.kept| == j && Filled(buf, c.o.st.kept)
      modifies a32.icx, log, buf
      ensures c'.body == c.body && c'.t0 == c.t0 && c'.st0 == c.st0
      ensures Ran(c', log.tx) && c'.o.stopped == !ready && (!ready ==> c'.o.code == -10)
      ensures ready ==> c'.k == c.k + 3
      ensures ready ==> |c'.o.st.kept| == j + 1 && Filled(buf, c'.o.st.kept)
      ensures forall i :: (if ready then j + 1 else j) <= i < buf.Length ==> buf[i] == old(buf[i])
    {
      var v;
      ready, v, c' := L2cReadByte(x, j, len, k0, c);
      if ready {
        buf[j] := Char(v);
      }
    }

    /** Reads the bytes of a block of `len` into `buf`, to the end of the script. */
    method L2cReadBytes(x: int, buf: array<int>, len: int, ghost c: Cursor) returns (ready: bool, ghost c': Cursor)
      requires Valid() && At(c, log.tx) && len <= buf.Length && |c.o.st.kept| == 0
      requires Upcoming(c.body, c.k, BlkReads(x, 0, len)) && c.k + |BlkReads(x, 0, len)| == |c.body|
      modifies a32.icx, log, buf
      ensures c'.body == c.body && c'.t0 == c.t0 && c'.st0 == c.st0
      ensures Over(c', log.tx) && c'.o.stopped == !ready && (!ready ==> c'.o.code == -10)
      ensures ready ==> |c'.o.st.kept| == (if len > 0 then len else 0) && Filled(buf, c'.o.st.kept)
      ensures forall i :: (if len > 0 then len else 0) <= i < buf.Length ==> buf[i] == old(buf[i])
    {
      ready, c' := true, c;
      var j := 0;
      while ready && j < len
        invariant 0 <= j && (j <= len || j == 0)
        invariant Ran(c', log.tx) && c'.body == c.body && c'.t0 == c.t0 && c'.st0 == c.st0
        invariant c'.o.stopped == !ready && (!ready ==> c'.o.code == -10)
        invariant ready ==> c'.k == c.k + 3 * j
        invariant ready ==> |c'.o.st.kept| == j && Filled(buf, c'.o.st.kept)
        invariant forall i :: j <= i < buf.Length ==> buf[i] == old(buf[i])
        decreases ready, len - j
      {
        ready, c' := L2cReadInto(x, buf, j, len, c.k, c');
        if ready {
          j := j + 1;
        }
      }
    }

    /** Writes the bytes `j` to the end of `buf`, three steps each, to the end of the script. */
    method L2cWriteBytes(x: int, buf: seq<int>, ghost c: Cursor) returns (ready: bool, ghost c': Cursor)
      requires Valid() && At(c, log.tx)
      requires Upcoming(c.body, c.k, BlkWrites(x, buf, 0)) && c.k + |BlkWrites(x, buf, 0)| == |c.body|
      modifies a32.icx, log
      ensures c'.body == c.body && c'.t0 == c.t0 && c'.st0 == c.st0
      ensures Over(c', log.tx) && c'.o.stopped == !ready && (!ready ==> c'.o.code == -10)
    {
      ready, c' := true, c;
      var j := 0;
      while ready && j < |buf|
        invariant 0 <= j <= |buf|
        invariant Ran(c', log.tx) && c'.body == c.body && c'.t0 == c.t0 && c'.st0 == c.st0
        invariant c'.o.stopped == !ready && (!ready ==> c'.o.code == -10)
        invariant ready ==> c'.k == c.k + 3 * j
        decreases ready, |buf| - j
      {
        ready, c' := L2cWriteByte(x, buf, j, c.k, c');
        if ready {
          j := j + 1;
        }
      }
    }

    /**
     * L2CBlkRead: reads `len` consecutive registers of the Si5338 from `addr`
     * into `buf`, each truncated to a `char`; 0, or -10.  A block of no
     * bytes is read without touching the bus (the routine as intended).
     */
    method L2CBlkRead(num: int, addr: int, buf: array<int>, len: int) returns (rc: int)
      requires Valid() && len <= buf.Length
      modifies a32.icx, log, buf
      ensures Grows(old(log.tx), log.tx)
      ensures Completes(L2cBlkReadFixed(num, addr, len), Since(old(log.tx), log.tx), 0, rc)
      ensures var t, x := Since(old(log.tx), log.tx), L2cSlave(num);
        if len <= 0 then t == [] && rc == 0
        else L2cClosed(t, x, I2C_SR_READ + I2C_SR_STOP + I2C_SR_ACK) && (rc == 0 || rc == -10) && (rc == -10 <==> EndsWith(t, L2cStop(x)))
      ensures rc == 0 ==> var k := Kept(L2cBlkReadFixed(num, addr, len).body, Since(old(log.tx), log.tx), State(0, [], 0));
                          |k| == (if len > 0 then len else 0) && Filled(buf, k)
      ensures forall i :: (if len > 0 then len else 0) <= i < buf.Length ==> buf[i] == old(buf[i])
    {
      if len <= 0 {
        rc := 0;
        assert Since(old(log.tx), log.tx) == [];
      } else {
        var x := L2cSlave(num);
        ghost var f := L2cBlkReadFrame(num, addr, len);
        ghost var c := Cursor(f.body, 0, log.tx, State(0, [], 0), Outcome(false, 0, 0, State(0, [], 0)));
        Start(f.body, log.tx, State(0, [], 0));
        L2cBlkReadShape(num, addr, len);
        var ready;
        ready, c := L2cSelect(x, addr, I2C_SR_WRITE + I2C_SR_STOP, c);
        if ready {
          ready, c := L2cSendByte(x, SI5338_ADDR + I2C_DAT_DDIR, I2C_SR_START + I2C_SR_WRITE, c);
        }
        if ready {
          ready, c := L2cReadBytes(x, buf, len, c);
        }
        rc := if ready then 0 else -10;
        if ready {
          KeptOver(c, log.tx);
        }
        Abandon(x + ICX_SLAVE_I2C_CSR, I2C_SR_STOP, ready, f, c);
        L2cBlkReadCloses(num, addr, len, Since(old(log.tx), log.tx), rc);
      }
    }

    /**
     * L2CBlkWrite: writes the bytes of `buf` to consecutive registers of the
     * Si5338 from `addr`, the last with STOP; 0, or -10.  A block of no bytes
     * is written without touching the bus (the routine as intended).
     */
    method L2CBlkWrite(num: int, addr: int, buf: seq<int>) returns (rc: int)
      requires Valid()
      modifies a32.icx, log
      ensures Grows(old(log.tx), log.tx)
      ensures Completes(L2cBlkWriteFixed(num, addr, buf), Since(old(log.tx), log.tx), 0, rc)
      ensures var t, x := Since(old(log.tx), log.tx), L2cSlave(num);
        if buf == [] then t == [] && rc == 0
        else L2cClosed(t, x, I2C_SR_WRITE + I2C_SR_STOP) && (rc == 0 || rc == -10) && (rc == -10 <==> EndsWith(t, L2cStop(x)))
    {
      if buf == [] {
        rc := 0;
        assert Since(old(log.tx), log.tx) == [];
      } else {
        var x := L2cSlave(num);
        ghost var f := L2cBlkWriteFrame(num, addr, buf);
        ghost var c := Cursor(f.body, 0, log.tx, State(0, [], 0), Outcome(false, 0, 0, State(0, [], 0)));
        Start(f.body, log.tx, State(0, [], 0));
        L2cBlkWriteShape(num, addr, buf);
        var ready;
        ready, c := L2cSelect(x, addr, I2C_SR_WRITE, c);
        if ready {
          ready, c := L2cWriteBytes(x, buf, c);
        }
        rc := if ready then 0 else -10;
        Abandon(x + ICX_SLAVE_I2C_CSR, I2C_SR_STOP, ready, f, c);
        L2cBlkWriteCloses(num, addr, buf, Since(old(log.tx), log.tx), rc);
      }
    }

    // ------------------------------------------------------------ SPI to the ADCs through a slave Xilinx

    /** Makes the ICX writes `ws` as the next steps, stopping with `code` at the first that fails. */
    method IcxPuts(ws: seq<(int, int)>, code: int, ghost c: Cursor) returns (ready: bool, ghost c': Cursor)
      requires Valid() && At(c, log.tx) && Upcoming(c.body, c.k, Puts(ws, code))
      modifies a32.icx, log
      ensures c'.body == c.body && c'.t0 == c.t0 && c'.st0 == c.st0
      ensures Ran(c', log.tx) && c'.o.stopped == !ready
      ensures ready ==> c'.k == c.k + |ws| && c'.o.st == c.o.st
      ensures !ready ==> c'.o.code == code
    {
      ready, c' := true, c;
      var i := 0;
      while ready && i < |ws|
        invariant 0 <= i <= |ws|
        invariant Ran(c', log.tx) && c'.body == c.body && c'.t0 == c.t0 && c'.st0 == c.st0
        invariant c'.o.stopped == !ready && (!ready ==> c'.o.code == code)
        invariant ready ==> c'.k == c.k + i && c'.o.st == c.o.st
        decreases ready, |ws| - i
      {
        var rc;
        rc, c' := IcxStep(IcxWr(ws[i].0, ws[i].1), c');
        ready := rc == 0;
        if ready {
          i := i + 1;
        }
      }
    }

    /** ADCRead: reads the 8-bit register `addr` of ADC `num`; the value the ICX read returns, or -1 on a failed write. */
    method ADCRead(num: int, addr: int) returns (rc: int)
      requires Valid()
      modifies a32.icx, log
      ensures Grows(old(log.tx), log.tx)
      ensures Completes(AdcReadFrame(num, addr), Since(old(log.tx), log.tx), 0, rc)
      ensures AdcReadEnds(Since(old(log.tx), log.tx), AdcXil(num), rc)
    {
      var x := AdcXil(num);
      ghost var f := AdcReadFrame(num, addr);
      ghost var c := Cursor(f.body, 0, log.tx, State(0, [], 0), Outcome(false, 0, 0, State(0, [], 0)));
      Start(f.body, log.tx, State(0, [], 0));
      AdcReadShape(num, addr);
      var ready;
      rc := -1;
      ready, c := IcxPuts(AdcReadPuts(num, addr), -1, c);
      if ready {
        rc, c := IcxStep(IcxRd(x + ICX_SLAVE_SPI_DAT), c);
      }
      Abandon(x + ICX_SLAVE_SPI_CSR, 0, ready, f, c);
      AdcReadCloses(num, addr, Since(old(log.tx), log.tx), rc);
    }

    /** ADCWrite: writes `val & 0xFF` to the 8-bit register `addr` of ADC `num`; 0, or -1 on a failed write. */
    method ADCWrite(num: int, addr: int, val: int) returns (rc: int)
      requires Valid()
      modifies a32.icx, log
      ensures Grows(old(log.tx), log.tx)
      ensures Completes(AdcWriteFrame(num, addr, val), Since(old(log.tx), log.tx), 0, rc)
      ensures AdcWriteEnds(Since(old(log.tx), log.tx), AdcXil(num), rc)
    {
      var x := AdcXil(num);
      ghost var f := AdcWriteFrame(num, addr, val);
      ghost var c := Cursor(f.body, 0, log.tx, State(0, [], 0), Outcome(false, 0, 0, State(0, [], 0)));
      Start(f.body, log.tx, State(0, [], 0));
      assert Upcoming(f.body, 0, f.body);
      var ready;
      ready, c := IcxPuts(AdcWritePuts(num, addr, val), -1, c);
      rc := if ready then 0 else -1;
      Abandon(x + ICX_SLAVE_SPI_CSR, 0, ready, f, c);
      AdcWriteCloses(num, addr, val, Since(old(log.tx), log.tx), rc);
    }

    /** GetADCID: the ID and grade registers of ADC `num` as `(id << 8) + grade`, or the first negative result. */
    method GetADCID(num: int) returns (rc: int)
      requires Valid()
      modifies a32.icx, log
      ensures Grows(old(log.tx), log.tx)
      ensures Completes(AdcIdFrame(num), Since(old(log.tx), log.tx), 0, rc)
    {
      ghost var t1 := log.tx;
      var id := ADCRead(num, ADC_REG_ID);
      ghost var t2 := log.tx;
      var grade := 0;
      if id < 0 {
        rc := id;
      } else {
        grade := ADCRead(num, ADC_REG_GRADE);
        rc := if grade < 0 then grade else id * 256 + grade;
      }
      PairRuns(AdcReadFrame(num, ADC_REG_ID), AdcReadFrame(num, ADC_REG_GRADE), t1, t2, log.tx, id, grade, rc);
    }

    // ------------------------------------------------------------ the check sequence

    /** Starts the check on slave `x`: the steps of `CheckStart`. */
    method CheckStartAt(x: int, time: nat, ghost c: Cursor) returns (ready: bool, ghost c': Cursor)
      requires Valid() && At(c, log.tx) && Upcoming(c.body, c.k, CheckStart(x, time))
      modifies a32.icx, log
      ensures c'.body == c.body && c'.t0 == c.t0 && c'.st0 == c.st0
      ensures Ran(c', log.tx) && c'.o.stopped == !ready && (!ready ==> c'.o.code == -1)
      ensures ready ==> c'.k == c.k + 3
    {
      var v, rc;
      v, c' := IcxStep(IcxRd(x + ICX_SLAVE_CSR_IN), c);
      ready := v >= 0;
      if ready {
        rc, c' := IcxStep(IcxWr(x + ICX_SLAVE_CSR_OUT, Derive(0xF, Or(SLAVE_CSR_TSTART, time * 16), v)), c');
        ready := rc == 0;
      }
      if ready {
        rc, c' := IcxStep(IcxWr(x + ICX_SLAVE_CSR_OUT, Derive(0xF, time * 16, v)), c');
        ready := rc == 0;
      }
    }

    /** Starts the check on slave `i` if the mask selects it: the steps of `CheckStart`, or none. */
    method CheckStartOn(i: nat, time: nat, mask: int, ghost rest: seq<Step>, ghost c: Cursor) returns (ready: bool, ghost c': Cursor)
      requires Valid() && At(c, log.tx) && i < 4 && Upcoming(c.body, c.k, CheckStarts(time, mask, i) + rest)
      modifies a32.icx, log
      ensures c'.body == c.body && c'.t0 == c.t0 && c'.st0 == c.st0
      ensures Ran(c', log.tx) && c'.o.stopped == !ready && (!ready ==> c'.o.code == -1)
      ensures ready ==> Upcoming(c.body, c'.k, CheckStarts(time, mask, i + 1) + rest)
      ensures ready ==> c'.k + |CheckStarts(time, mask, i + 1) + rest| == c.k + |CheckStarts(time, mask, i) + rest|
    {
      var x := SlaveReg(i, 0);
      ghost var p := if Selected(mask, i) then CheckStart(x, time) else [];
      StartsNext(time, mask, i, rest);
      Split(c.body, c.k, p, CheckStarts(time, mask, i + 1) + rest);
      ready, c' := true, c;
      if Selected(mask, i) {
        ready, c' := CheckStartAt(x, time, c);
      }
    }

    /** Waits for the check on slave `i` to finish if the mask selects it: the step `CheckWait`, or none. */
    method CheckWaitOn(i: nat, time: nat, mask: int, ghost c: Cursor) returns (ready: bool, ghost c': Cursor)
      requires Valid() && At(c, log.tx) && i < 4 && Upcoming(c.body, c.k, CheckWaits(time, mask, i))
      requires c.k + |CheckWaits(time, mask, i)| == |c.body|
      modifies a32.icx, log
      ensures c'.body == c.body && c'.t0 == c.t0 && c'.st0 == c.st0
      ensures Ran(c', log.tx) && c'.o.stopped == !ready && (!ready ==> c'.o.code == -2)
      ensures ready ==> Upcoming(c.body, c'.k, CheckWaits(time, mask, i + 1)) && c'.k + |CheckWaits(time, mask, i + 1)| == |c.body|
    {
      WaitsNext(time, mask, i);
      ghost var p := if Selected(mask, i) then [CheckWait(SlaveReg(i, 0), time)] else [];
      Split(c.body, c.k, p, CheckWaits(time, mask, i + 1));
      ready, c' := true, c;
      if Selected(mask, i) {
        ready, c' := IcxPoll(SlaveReg(i, 0) + ICX_SLAVE_CSR_IN, NoneSet(SLAVE_CSR_TSTART), Pow2(2 * (time + 1)), c);
      }
    }

    /**
     * ADCCheckSeq: starts the check sequence of measurement time
     * 2^(16 + 2 time) clocks on the slave Xilinxes selected by `xilmask`,
     * then waits for each; 0, -1 on a failed start, -2 when a wait runs out.
     */
    method ADCCheckSeq(time: nat, xilmask: int) returns (rc: int)
      requires Valid()
      modifies a32.icx, log
      ensures Grows(old(log.tx), log.tx)
      ensures Completes(CheckSeqFrame(time, xilmask), Since(old(log.tx), log.tx), 0, rc)
      ensures CheckSeqEnds(Since(old(log.tx), log.tx), time, rc)
    {
      ghost var f := CheckSeqFrame(time, xilmask);
      ghost var c := Cursor(f.body, 0, log.tx, State(0, [], 0), Outcome(false, 0, 0, State(0, [], 0)));
      Start(f.body, log.tx, State(0, [], 0));
      assert Upcoming(f.body, 0, f.body);
      var ready := true;
      var i := 0;
      while ready && i < 4
        invariant 0 <= i <= 4
        invariant Ran(c, log.tx) && c.body == f.body && c.t0 == old(log.tx) && c.st0 == State(0, [], 0)
        invariant c.o.stopped == !ready && (!ready ==> c.o.code == -1)
        invariant ready ==> Upcoming(c.body, c.k, CheckStarts(time, xilmask, i) + CheckWaits(time, xilmask, 0))
        invariant ready ==> c.k + |CheckStarts(time, xilmask, i) + CheckWaits(time, xilmask, 0)| == |c.body|
        decreases ready, 4 - i
      {
        ready, c := CheckStartOn(i, time, xilmask, CheckWaits(time, xilmask, 0), c);
        if ready {
          i := i + 1;
        }
      }
      rc := -1;
      if ready {
        assert CheckStarts(time, xilmask, 4) + CheckWaits(time, xilmask, 0) == CheckWaits(time, xilmask, 0);
        i := 0;
        while ready && i < 4
          invariant 0 <= i <= 4
          invariant Ran(c, log.tx) && c.body == f.body && c.t0 == old(log.tx) && c.st0 == State(0, [], 0)
          invariant c.o.stopped == !ready && (!ready ==> c.o.code == -2)
          invariant ready ==> Upcoming(c.body, c.k, CheckWaits(time, xilmask, i)) && c.k + |CheckWaits(time, xilmask, i)| == |c.body|
          decreases ready, 4 - i
        {
          ready, c := CheckWaitOn(i, time, xilmask, c);
          if ready {
            i := i + 1;
          }
        }
        rc := if ready then 0 else -2;
      }
      Finished(f, c, log.tx, []);
      assert log.tx + [] == log.tx;
      CheckSeqCloses(time, xilmask, Since(old(log.tx), log.tx), rc);
    }


    // ------------------------------------------------------------ register helpers

    /** Inhibit: sets (`what` != 0) or clears the inhibit bit of the trigger CSR; every other bit stays. */
    method Inhibit(what: int)
      modifies a32`trigCsr
      ensures (a32.trigCsr & TRIG_CSR_INHIBIT != 0) == (what != 0)
      ensures a32.trigCsr & !TRIG_CSR_INHIBIT == old(a32.trigCsr) & !TRIG_CSR_INHIBIT
    {
      var tmp := a32.trigCsr;
      if what != 0 {
        a32.trigCsr := tmp | TRIG_CSR_INHIBIT;
      } else {
        a32.trigCsr := tmp & !TRIG_CSR_INHIBIT;
      }
    }

    /** EnableFifo: sets (`what` != 0) or clears the enable bit of the FIFO CSR; every other bit stays. */
    method EnableFifo(what: int)
      modifies a32`fifoCsr
      ensures (a32.fifoCsr & FIFO_CSR_ENABLE != 0) == (what != 0)
      ensures a32.fifoCsr & !FIFO_CSR_ENABLE == old(a32.fifoCsr) & !FIFO_CSR_ENABLE
    {
      if what != 0 {
        a32.fifoCsr := a32.fifoCsr | FIFO_CSR_ENABLE;
      } else {
        a32.fifoCsr := a32.fifoCsr & !FIFO_CSR_ENABLE;
      }
    }

    /** Reset: pulses the reset bit of the main CSR; it ends clear and every other bit stays. */
    method Reset()
      modifies a32`csrOut
      ensures a32.csrOut == old(a32.csrOut) & !MAIN_CSR_RESET
    {
      a32.csrOut := a32.csrOut | MAIN_CSR_RESET;
      a32.csrOut := a32.csrOut & !MAIN_CSR_RESET;
    }

    /**
     * ResetFifo: sets the hard and soft reset bits of the FIFO CSR that
     * `mask` selects; no other bit of `mask` reaches the CSR and no bit is
     * cleared.
     */
    method ResetFifo(mask: int)
      modifies a32`fifoCsr
      ensures a32.fifoCsr & !(FIFO_CSR_HRESET | FIFO_CSR_SRESET) == old(a32.fifoCsr) & !(FIFO_CSR_HRESET | FIFO_CSR_SRESET)
      ensures (a32.fifoCsr & FIFO_CSR_HRESET != 0) == (old(a32.fifoCsr) & FIFO_CSR_HRESET != 0 || Word(mask) & FIFO_CSR_HRESET != 0)
      ensures (a32.fifoCsr & FIFO_CSR_SRESET != 0) == (old(a32.fifoCsr) & FIFO_CSR_SRESET != 0 || Word(mask) & FIFO_CSR_SRESET != 0)
    {
      a32.fifoCsr := a32.fifoCsr | (Word(mask) & (FIFO_CSR_HRESET | FIFO_CSR_SRESET));
    }

    /**
     * SoftTrigger: a negative `freq` fires one pulse by writing the counter
     * register; otherwise `freq` becomes the soft trigger period (0 stops it).
     */
    method SoftTrigger(freq: int)
      modifies a32`trigCsr, a32`trigCnt
      ensures freq < 0 ==> a32.trigCnt == 0 && a32.trigCsr == old(a32.trigCsr)
      ensures freq >= 0 ==> a32.trigCnt == old(a32.trigCnt) && a32.trigCsr == WithSoftPeriod(old(a32.trigCsr), freq)
    {
      if freq < 0 {
        a32.trigCnt := 0;
      } else {
        var tmp := a32.trigCsr & !TRIG_CSR_SOFT_MASK;
        tmp := tmp | ((Word(freq) << 16) & TRIG_CSR_SOFT_MASK);
        a32.trigCsr := tmp;
      }
    }

    /** WriteUserWord: puts `num` into the user word field of the main CSR. */
    method WriteUserWord(num: int)
      modifies a32`csrOut
      ensures a32.csrOut == WithUserWord(old(a32.csrOut), num)
    {
      var tmp := a32.csrOut;
      tmp := tmp & !MAIN_CSR_USER_MASK;
      tmp := tmp | ((Word(num) << 16) & MAIN_CSR_USER_MASK);
      a32.csrOut := tmp;
    }

    // ------------------------------------------------------------ the SDRAM FIFO

    /**
     * GetFromFifo: one readout of the FIFO into `buf`, which holds `size`
     * bytes.  Nothing when the FIFO is empty (0); -1 when the pointers are
     * inconsistent; otherwise one DMA transfer of the chunk from the read
     * pointer, -2 when it fails, else the chunk's length, with the bytes in
     * `buf` and the read pointer advanced around the ring.
     */
    method GetFromFifo(buf: array<int>, size: int) returns (rc: int)
      requires 0 <= size <= buf.Length
      modifies a32`fifoRptr, dma, buf
      ensures dma.memory == old(dma.memory)
      ensures var plan := ReadPlan(Bottom(a32.fifoWin), Top(a32.fifoWin), old(a32.fifoRptr), a32.fifoWptr, size);
              (!plan.Read? ==> rc == (if plan.Empty? then 0 else -1) && a32.fifoRptr == old(a32.fifoRptr) &&
                               dma.requests == old(dma.requests) && dma.failures == old(dma.failures) && buf[..] == old(buf[..])) &&
              (plan.Read? ==> dma.requests == old(dma.requests) + [(Base64(ga) + old(a32.fifoRptr), Clip(plan.len))]) &&
              (plan.Read? && Succeeds(old(dma.failures)) ==>
                 rc == plan.len &&
                 a32.fifoRptr == NextRead(Bottom(a32.fifoWin), Top(a32.fifoWin), old(a32.fifoRptr), plan.len) &&
                 buf[..Clip(plan.len)] == Span(dma.memory, Base64(ga) + old(a32.fifoRptr), Clip(plan.len)) &&
                 buf[Clip(plan.len)..] == old(buf[..])[Clip(plan.len)..]) &&
              (plan.Read? && !Succeeds(old(dma.failures)) ==>
                 rc == -2 && a32.fifoRptr == old(a32.fifoRptr) && buf[..] == old(buf[..]))
    {
      var rptr := a32.fifoRptr;
      var wptr := a32.fifoWptr;
      if rptr == wptr {
        return 0;
      }
      var win := a32.fifoWin;
      var bot := Bottom(win);
      var top := Top(win);
      var refused, len := ChunkOf(bot, top, rptr, wptr, size);
      if refused {
        return -1;
      }
      assert ReadPlan(bot, top, rptr, wptr, size) == Read(len);
      var ok, data := dma.Transfer(Base64(ga) + rptr, Clip(len));
      assert dma.requests == old(dma.requests) + [(Base64(ga) + rptr, Clip(len))];
      if !ok {
        return -2;
      }
      forall k | 0 <= k < Clip(len) {
        buf[k] := data[k];
      }
      assert buf[..Clip(len)] == data;
      rptr := rptr + len;
      if rptr == top {
        rptr := bot;
      }
      a32.fifoRptr := rptr;
      rc := len;
    }

    /**
     * The read half of a TestFifo pass: fetches the `len` bytes at FIFO
     * offset `raddr` by DMA and carries the framing scan `s` over their
     * words; when the scan finds new errors the chunk is fetched once more.
     * 0 with the scan carried over the chunk, or -4 when a transfer fails
     * (after pulsing the FIFO CSR if it is the first one).
     */
    method ScanChunk(raddr: int, len: int, s: ScanState) returns (code: int, next: ScanState)
      modifies a32`fifoCsr, dma
      ensures dma.memory == old(dma.memory)
      ensures code == 0 || code == -4
      ensures code == 0 ==> a32.fifoCsr == old(a32.fifoCsr)
      ensures code == 0 ==> next == Scan(s, ChunkWords(dma.memory, Base64(ga), Readout(raddr, len)))
    {
      next := s;
      var ok, data := dma.Transfer(Base64(ga) + raddr, Clip(len));
      if !ok {
        a32.fifoCsr := 0x9000_0000;
        a32.fifoCsr := 0x8000_0000;
        return -4, next;
      }
      assert Words(data) == ChunkWords(dma.memory, Base64(ga), Readout(raddr, len));
      next := ScanWords(s, Words(data));
      if next.errs != s.errs {
        var again, _ := dma.Transfer(Base64(ga) + raddr, Clip(len));
        if !again {
          return -4, next;
        }
      }
      code := 0;
    }

    /**
     * One pass of TestFifo's loop, with the ERROR and EMPTY tests of the FIFO
     * status and the write pointer `wptr` the hardware presents: 0 with the
     * scan carried over the words of the readouts made (none when the FIFO
     * is empty, else one), or the error code the pass stops with.
     */
    method FifoPass(bot: int, top: int, error: bool, empty: bool, wptr: int, s: ScanState, ghost ring: bool)
      returns (code: int, next: ScanState, ghost read: seq<Readout>)
      requires ring ==> bot <= a32.fifoRptr < top && bot <= wptr < top
      modifies a32`fifoCsr, a32`fifoRptr, dma
      ensures dma.memory == old(dma.memory)
      ensures code == 0 || code == -2 || code == -3 || code == -4
      ensures code == 0 ==> a32.fifoCsr == old(a32.fifoCsr)
      ensures code == 0 ==> next == Scan(s, Delivered(dma.memory, Base64(ga), read))
      ensures code == 0 && ring ==> bot <= a32.fifoRptr < top && InArea(bot, top, read)
      ensures ring ==> code != -3
    {
      next, read := s, [];
      if error {
        return -2, next, read;
      }
      if empty {
        assert Delivered(dma.memory, Base64(ga), read) == [];
        return 0, next, read;
      }
      var raddr := a32.fifoRptr;
      var refused, len := ChunkOf(bot, top, raddr, wptr, MBYTE);
      if ring {
        ChunkInArea(bot, top, raddr, wptr, MBYTE);
      }
      if refused {
        return -3, next, read;
      }
      code, next := ScanChunk(raddr, len, s);
      if code != 0 {
        return;
      }
      read := [Readout(raddr, len)];
      assert read[..0] == [];
      assert Delivered(dma.memory, Base64(ga), read) == ChunkWords(dma.memory, Base64(ga), Readout(raddr, len));
      raddr := raddr + len;
      if raddr == top {
        raddr := bot;
      }
      a32.fifoRptr := raddr;
    }

    /**
     * The preparation TestFifo makes: clears ENABLE and sets the hard reset
     * bit of the FIFO CSR (the `&=` and the ResetFifo(FIFO_CSR_HRESET) call,
     * as one write), decodes the area from the window register and sets
     * ENABLE again unless the area is empty.
     */
    method OpenFifo() returns (bot: int, top: int)
      modifies a32`fifoCsr
      ensures bot == Bottom(a32.fifoWin) && top == Top(a32.fifoWin)
      ensures bot >= top ==> a32.fifoCsr == (old(a32.fifoCsr) & !FIFO_CSR_ENABLE) | FIFO_CSR_HRESET
      ensures bot < top ==> a32.fifoCsr == (old(a32.fifoCsr) & !FIFO_CSR_ENABLE) | FIFO_CSR_HRESET | FIFO_CSR_ENABLE
    {
      a32.fifoCsr := (a32.fifoCsr & !FIFO_CSR_ENABLE) | FIFO_CSR_HRESET;
      bot, top := Bottom(a32.fifoWin), Top(a32.fifoWin);
      if bot < top {
        a32.fifoCsr := a32.fifoCsr | FIFO_CSR_ENABLE;
      }
    }

    /**
     * TestFifo: resets and enables the FIFO, then reads it chunk by chunk and
     * checks the block framing of the words until `cnt` blocks have been
     * seen.  The FIFO's status and write pointer as the hardware presents them
     * at each pass are the successive entries of `status`; `finished` is false
     * when they run out first.  Returns the framing errors, -1 when the window
     * register gives an empty area, -2 on a FIFO error, -3 on inconsistent
     * pointers, -4 when a DMA transfer fails.  `chunks` are the (read pointer,
     * length) pairs read.
     */
    method TestFifo(cnt: int, status: seq<(bv32, int)>) returns (rc: int, finished: bool, ghost chunks: seq<Readout>)
      modifies a32`fifoCsr, a32`fifoRptr, dma
      ensures dma.memory == old(dma.memory)
      ensures rc == -1 <==> Bottom(a32.fifoWin) >= Top(a32.fifoWin)
      ensures rc == -1 ==> a32.fifoCsr == (old(a32.fifoCsr) & !FIFO_CSR_ENABLE) | FIFO_CSR_HRESET
      ensures rc >= 0 ==>
                var sc := Scan(ScanState(0, 0, 0), Delivered(dma.memory, Base64(ga), chunks));
                rc == sc.errs && (finished <==> sc.blocks >= cnt) &&
                a32.fifoCsr == (old(a32.fifoCsr) & !FIFO_CSR_ENABLE) | FIFO_CSR_HRESET | FIFO_CSR_ENABLE
      ensures rc >= 0 || rc in {-1, -2, -3, -4}
      ensures var bot, top := Bottom(a32.fifoWin), Top(a32.fifoWin);
              bot <= old(a32.fifoRptr) < top && (forall k :: 0 <= k < |status| ==> bot <= status[k].1 < top) ==>
                rc != -3 && InArea(bot, top, chunks)
    {
      chunks := [];
      var bot, top := OpenFifo();
      if bot >= top {
        return -1, false, chunks;
      }
      ghost var mem, csr := dma.memory, a32.fifoCsr;
      ghost var ring := bot <= old(a32.fifoRptr) < top && forall k :: 0 <= k < |status| ==> bot <= status[k].1 < top;
      var s := ScanState(0, 0, 0);
      var p := 0;
      while s.blocks < cnt && p < |status|
        invariant 0 <= p <= |status|
        invariant dma.memory == mem && a32.fifoCsr == csr
        invariant s == Scan(ScanState(0, 0, 0), Delivered(mem, Base64(ga), chunks))
        invariant ring ==> bot <= a32.fifoRptr < top && InArea(bot, top, chunks)
        decreases |status| - p
      {
        var code, next, read := FifoPass(bot, top, status[p].0 & FIFO_CSR_ERROR != 0, status[p].0 & FIFO_CSR_EMPTY != 0, status[p].1, s, ring);
        p := p + 1;
        if code != 0 {
          return code, false, chunks;
        }
        ScanDelivered(mem, Base64(ga), chunks, read, s);
        chunks, s := chunks + read, next;
      }
      rc := s.errs;
      finished := s.blocks >= cnt;
    }
  }
}
