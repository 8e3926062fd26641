/*
 * The SDRAM FIFO of a module: a ring buffer in the module's A64 window whose
 * bounds the window register (LIMR) gives in 8 KiB blocks, with a read
 * pointer the software advances and a write pointer the hardware advances,
 * both byte addresses.  Data are 16-bit words; a word with bit 15 set is a
 * control word that opens a block and carries, in bits 8:0, how many words
 * follow it.
 */
module Fifo {
  import opened RegMap
  import opened Hardware

  // ---------------------------------------------------------------- the window register

  /** Bytes in one block of the window register. */
  const BLOCK: int := 0x2000

  /**
   * Byte address of the bottom of the FIFO area: LIMR[15:0] in blocks.  The
   * source computes it as `(win & 0xFFFF) << 13`; BoundsAsWritten shows the
   * two agree.
   */
  function Bottom(win: int): int
  {
    (win % 0x1_0000) * BLOCK
  }

  /**
   * Byte address of the first byte above the FIFO area: LIMR[31:16] in
   * blocks.  GetFromFifo computes it as `(win >> 3) & 0x1FFFE000` and
   * TestFifo as `((win >> 16) & 0xFFFF) << 13`; BoundsAsWritten shows all
   * three agree.
   */
  function Top(win: int): int
  {
    (win / 0x1_0000 % 0x1_0000) * BLOCK
  }

  /** The window register Init writes for a FIFO from block `begin` up to block `end`. */
  function Window(begin: int, end: int): int
  {
    And(begin, 0xFFFF) + And(end, 0xFFFF) * 0x1_0000
  }

  lemma Pow2Values()
    ensures Pow2(3) == 8 && Pow2(13) == BLOCK && Pow2(16) == 0x1_0000
  {
    assert Pow2(3) == 8;
    assert Pow2(8) == 256;
    assert Pow2(13) == 32 * Pow2(8);
    assert Pow2(16) == 8 * Pow2(13);
  }

  /** Masking with an even mask is masking the halves and doubling. */
  lemma AndEven(a: int, m: nat)
    requires m % 2 == 0
    ensures And(a, m) == 2 * And(a / 2, m / 2)
  {
  }

  /** Masking with a mask shifted by `k` bits is masking the value shifted right by `k` bits, shifted back. */
  lemma {:induction false} AndShifted(a: int, m: nat, k: nat)
    ensures And(a, Pow2(k) * m) == Pow2(k) * And(a / Pow2(k), m)
    decreases k
  {
    var P := Pow2(k);
    if k == 0 {
      assert P == 1;
    } else {
      var p := Pow2(k - 1);
      assert P == 2 * p;
      var pm := p * m;
      assert P * m == 2 * pm by {
        assert P * m == (2 * p) * m;
      }
      AndEven(a, 2 * pm);
      AndShifted(a / 2, m, k - 1);
      DivDiv(a, 2, p);
      var x := And(a / 2 / p, m);
      assert And(a, P * m) == 2 * (p * x);
      Doubled(p, x);
    }
  }

  lemma Doubled(p: int, x: int)
    ensures (2 * p) * x == 2 * (p * x)
  {
  }

  /** Dividing twice is dividing by the product. */
  lemma DivDiv(a: int, b: nat, c: nat)
    requires b > 0 && c > 0
    ensures a / b / c == a / (b * c)
  {
    var q := a / b / c;
    var r := a / b % c;
    var s := a % b;
    assert a == b * (a / b) + s;
    assert a / b == c * q + r;
    assert a == (b * c) * q + (b * r + s) by {
      assert b * (c * q + r) == (b * c) * q + b * r;
    }
    assert 0 <= b * r + s < b * c by {
      assert b * r <= b * (c - 1);
    }
    DivUnique(a, b * c, q, b * r + s);
  }

  /** The bounds as the source computes them, with masks and shifts, are the bounds of the window register. */
  lemma BoundsAsWritten(win: int)
    ensures Bottom(win) == And(win, 0xFFFF) * BLOCK
    ensures Top(win) == And(win / 8, 0x1FFF_E000)
    ensures Top(win) == And(win / 0x1_0000, 0xFFFF) * BLOCK
  {
    Pow2Values();
    AndLowBits(win, 16);
    AndLowBits(win / 0x1_0000, 16);
    AndShifted(win / 8, 0xFFFF, 13);
    assert Pow2(13) * 0xFFFF == 0x1FFF_E000;
    DivDiv(win, 8, BLOCK);
  }

  /**
   * Decoding the window register gives back the bounds Init packed into it:
   * the FIFO runs from block `begin` to block `end`, each taken modulo 2^16.
   */
  lemma WindowRoundTrip(begin: int, end: int)
    ensures Bottom(Window(begin, end)) == (begin % 0x1_0000) * BLOCK
    ensures Top(Window(begin, end)) == (end % 0x1_0000) * BLOCK
  {
    Pow2Values();
    AndLowBits(begin, 16);
    AndLowBits(end, 16);
    var lo := And(begin, 0xFFFF);
    var hi := And(end, 0xFFFF);
    var w := Window(begin, end);
    assert w == lo + hi * 0x1_0000;
    ModUnique(w, 0x1_0000, hi, lo);
    DivUnique(w, 0x1_0000, hi, lo);
    ModUnique(hi, 0x1_0000, 0, hi);
  }

  // ---------------------------------------------------------------- one readout

  /** What one FIFO readout does: nothing (empty), refuse (inconsistent pointers), or transfer `len` bytes. */
  datatype Plan = Empty | Refuse | Read(len: int)

  /**
   * The bytes a readout takes from a FIFO occupying the bytes from `bot` up
   * to `top`, with pointers `rptr` and `wptr`, into a buffer of `size` bytes:
   * the bytes written and not yet read, counted around the ring, cut to the
   * buffer and to the top of the area (the remainder is left for the next
   * readout); refused when even around the ring the count is negative.
   */
  function Chunk(bot: int, top: int, rptr: int, wptr: int, size: int): Plan
  {
    var avail := if wptr - rptr < 0 then wptr - rptr + (top - bot) else wptr - rptr;
    if avail < 0 then Refuse
    else
      var len := if avail > size then size else avail;
      Read(if rptr + len > top then top - rptr else len)
  }

  /**
   * The length of a chunk, computed step by step as GetFromFifo and TestFifo
   * do: `refused` when the count around the ring is negative.
   */
  method ChunkOf(bot: int, top: int, rptr: int, wptr: int, size: int) returns (refused: bool, len: int)
    ensures refused <==> Chunk(bot, top, rptr, wptr, size).Refuse?
    ensures !refused ==> len == Chunk(bot, top, rptr, wptr, size).len
  {
    refused := false;
    var fifolen := top - bot;
    len := wptr - rptr;
    if len < 0 {
      len := len + fifolen;
    }
    if len < 0 {
      refused := true;
      return;
    }
    if len > size {
      len := size;
    }
    if rptr + len > top {
      len := top - rptr;
    }
  }

  /** GetFromFifo's readout: nothing when the pointers are equal, else a chunk. */
  function ReadPlan(bot: int, top: int, rptr: int, wptr: int, size: int): Plan
  {
    if rptr == wptr then Empty else Chunk(bot, top, rptr, wptr, size)
  }

  /**
   * The byte count a transfer is asked for: a negative chunk (a read pointer
   * above the top of the area) moves no byte.
   */
  function Clip(len: int): nat
  {
    if len < 0 then 0 else len
  }

  /** The read pointer after `len` bytes from `rptr`: back to the bottom when it reaches the top. */
  function NextRead(bot: int, top: int, rptr: int, len: int): int
  {
    if rptr + len == top then bot else rptr + len
  }

  /**
   * With both pointers in the area, a chunk is never refused; it holds
   * between 0 and `size` bytes, never past the top of the area nor past the
   * data written, and leaves the read pointer in the area, advanced by that
   * many bytes around the ring.  It reaches the write pointer exactly when it
   * took every byte written.
   */
  lemma ChunkStaysInRing(bot: int, top: int, rptr: int, wptr: int, size: int)
    requires bot <= rptr < top && bot <= wptr < top && size >= 0
    ensures Chunk(bot, top, rptr, wptr, size).Read?
    ensures var len := Chunk(bot, top, rptr, wptr, size).len;
            var avail := (wptr - rptr) % (top - bot);
            0 <= len <= size && len <= avail && rptr + len <= top &&
            bot <= NextRead(bot, top, rptr, len) < top &&
            NextRead(bot, top, rptr, len) - bot == (rptr - bot + len) % (top - bot) &&
            (NextRead(bot, top, rptr, len) == wptr <==> len == avail)
  {
    var ring := top - bot;
    var avail := (wptr - rptr) % ring;
    if wptr - rptr < 0 {
      ModUnique(wptr - rptr, ring, -1, wptr - rptr + ring);
    } else {
      ModUnique(wptr - rptr, ring, 0, wptr - rptr);
    }
    var len := Chunk(bot, top, rptr, wptr, size).len;
    assert 0 <= len <= avail && rptr + len <= top;
    if rptr + len == top {
      ModUnique(rptr - bot + len, ring, 1, 0);
    } else {
      ModUnique(rptr - bot + len, ring, 0, rptr - bot + len);
    }
  }

  /** The bounds part of ChunkStaysInRing, free of remainders. */
  lemma ChunkInArea(bot: int, top: int, rptr: int, wptr: int, size: int)
    requires bot <= rptr < top && bot <= wptr < top && size >= 0
    ensures Chunk(bot, top, rptr, wptr, size).Read?
    ensures var len := Chunk(bot, top, rptr, wptr, size).len;
            0 <= len <= size && rptr + len <= top && bot <= NextRead(bot, top, rptr, len) < top
  {
    ChunkStaysInRing(bot, top, rptr, wptr, size);
  }

  // ---------------------------------------------------------------- the framing scan of TestFifo

  /** A control word: bit 15 set. */
  predicate Control(w: int)
  {
    And(w, 0x8000) != 0
  }

  /** The number of words a control word announces: bits 8:0. */
  function Announced(w: int): nat
  {
    And(w, 0x1FF)
  }

  /** Where the framing scan stands: words still owed to the open block, errors, blocks opened. */
  datatype ScanState = ScanState(owed: nat, errs: nat, blocks: nat)

  /**
   * TestFifo's check of one word: a control word while words are still owed
   * is an error, and opens a new block anyway; a data word pays one owed
   * word, or is an error when none is owed.
   */
  function ScanWord(s: ScanState, w: int): ScanState
  {
    if Control(w) then ScanState(Announced(w), s.errs + (if s.owed != 0 then 1 else 0), s.blocks + 1)
    else if s.owed != 0 then s.(owed := s.owed - 1)
    else s.(errs := s.errs + 1)
  }

  /** The scan of a stream of words. */
  function Scan(s: ScanState, ws: seq<int>): ScanState
  {
    if ws == [] then s else ScanWord(Scan(s, ws[..|ws| - 1]), ws[|ws| - 1])
  }

  /** TestFifo's loop over the words of one readout, carrying the scan state across readouts. */
  method ScanWords(s: ScanState, ws: seq<int>) returns (r: ScanState)
    ensures r == Scan(s, ws)
  {
    r := s;
    var k := 0;
    assert ws[..0] == [];
    while k < |ws|
      invariant 0 <= k <= |ws| && r == Scan(s, ws[..k])
    {
      ScanStep(s, ws, k);
      if Control(ws[k]) {
        r := ScanState(Announced(ws[k]), r.errs + (if r.owed != 0 then 1 else 0), r.blocks + 1);
      } else if r.owed != 0 {
        r := r.(owed := r.owed - 1);
      } else {
        r := r.(errs := r.errs + 1);
      }
      k := k + 1;
    }
    assert ws[..|ws|] == ws;
  }

  /** One more word of the stream is one more step of the scan. */
  lemma ScanStep(s: ScanState, ws: seq<int>, k: nat)
    requires k < |ws|
    ensures Scan(s, ws[..k + 1]) == ScanWord(Scan(s, ws[..k]), ws[k])
  {
    assert ws[..k + 1][..k] == ws[..k];
  }

  /** Scanning a stream in two pieces, the state carried over between them, is scanning it whole. */
  lemma {:induction false} ScanConcat(s: ScanState, a: seq<int>, b: seq<int>)
    ensures Scan(s, a + b) == Scan(Scan(s, a), b)
    decreases |b|
  {
    if b == [] {
      assert a + b == a;
    } else {
      assert (a + b)[..|a + b| - 1] == a + b[..|b| - 1];
      ScanConcat(s, a, b[..|b| - 1]);
    }
  }

  /** A well-formed block: a control word announcing exactly the data words that follow it. */
  predicate WellFormed(h: int, data: seq<int>)
  {
    Control(h) && Announced(h) == |data| && forall k :: 0 <= k < |data| ==> !Control(data[k])
  }

  /** The words of a sequence of blocks, each header followed by its data. */
  function Flatten(blocks: seq<(int, seq<int>)>): seq<int>
  {
    if blocks == [] then [] else Flatten(blocks[..|blocks| - 1]) + [blocks[|blocks| - 1].0] + blocks[|blocks| - 1].1
  }

  /** Data words all paid from what is owed. */
  lemma {:induction false} ScanData(s: ScanState, data: seq<int>)
    requires s.owed >= |data| && forall k :: 0 <= k < |data| ==> !Control(data[k])
    ensures Scan(s, data) == s.(owed := s.owed - |data|)
    decreases |data|
  {
    if data != [] {
      ScanData(s, data[..|data| - 1]);
    }
  }

  /** A stream of well-formed blocks scans with no error, counts every block and owes nothing at its end. */
  lemma {:induction false} WellFormedStreamScansClean(s: ScanState, blocks: seq<(int, seq<int>)>)
    requires s.owed == 0
    requires forall i :: 0 <= i < |blocks| ==> WellFormed(blocks[i].0, blocks[i].1)
    ensures Scan(s, Flatten(blocks)) == ScanState(0, s.errs, s.blocks + |blocks|)
    decreases |blocks|
  {
    if blocks != [] {
      var n := |blocks|;
      var h := blocks[n - 1].0;
      var data := blocks[n - 1].1;
      var front := Flatten(blocks[..n - 1]);
      assert Flatten(blocks) == front + [h] + data;
      WellFormedStreamScansClean(s, blocks[..n - 1]);
      var s1 := ScanState(0, s.errs, s.blocks + n - 1);
      assert Scan(s, front) == s1;
      ScanConcat(s, front + [h], data);
      ScanConcat(s, front, [h]);
      assert [h][..0] == [];
      assert Scan(s1, [h]) == ScanWord(s1, h);
      assert WellFormed(h, data);
      ScanData(ScanState(Announced(h), s.errs, s.blocks + n), data);
    }
  }

  /** The 16-bit little-endian words of a byte buffer; an odd last byte is not a word. */
  function Words(bytes: seq<int>): (ws: seq<int>)
    ensures |ws| == |bytes| / 2
  {
    seq(|bytes| / 2, k requires 0 <= k < |bytes| / 2 => Byte(bytes[2 * k]) + 256 * Byte(bytes[2 * k + 1]))
  }

  /** One readout: `len` bytes from read pointer `rptr`. */
  datatype Readout = Readout(rptr: int, len: int)

  /** The 16-bit words of the bytes of `memory` readout `c` takes from the window at `base`. */
  function ChunkWords(memory: map<int, int>, base: int, c: Readout): seq<int>
  {
    Words(Span(memory, base + c.rptr, Clip(c.len)))
  }

  /**
   * The words a sequence of readouts delivers: for each (read pointer,
   * length) in turn, the words of that chunk.
   */
  function Delivered(memory: map<int, int>, base: int, chunks: seq<Readout>): seq<int>
  {
    if chunks == [] then []
    else Delivered(memory, base, chunks[..|chunks| - 1]) + ChunkWords(memory, base, chunks[|chunks| - 1])
  }

  /** The words of two runs of readouts, one after the other, are the words of each run in turn. */
  lemma {:induction false} DeliveredAppend(memory: map<int, int>, base: int, a: seq<Readout>, b: seq<Readout>)
    ensures Delivered(memory, base, a + b) == Delivered(memory, base, a) + Delivered(memory, base, b)
    decreases |b|
  {
    if b == [] {
      assert a + b == a;
    } else {
      assert (a + b)[..|a + b| - 1] == a + b[..|b| - 1];
      DeliveredAppend(memory, base, a, b[..|b| - 1]);
    }
  }

  /** Scanning the words of further readouts continues the scan of the earlier ones. */
  lemma ScanDelivered(memory: map<int, int>, base: int, chunks: seq<Readout>, more: seq<Readout>, s: ScanState)
    requires s == Scan(ScanState(0, 0, 0), Delivered(memory, base, chunks))
    ensures Scan(s, Delivered(memory, base, more)) == Scan(ScanState(0, 0, 0), Delivered(memory, base, chunks + more))
  {
    DeliveredAppend(memory, base, chunks, more);
    ScanConcat(ScanState(0, 0, 0), Delivered(memory, base, chunks), Delivered(memory, base, more));
  }

  /** The readouts all lie inside the FIFO area [bot, top), none longer than a megabyte. */
  predicate InArea(bot: int, top: int, chunks: seq<Readout>)
  {
    forall k :: 0 <= k < |chunks| ==> bot <= chunks[k].rptr && 0 <= chunks[k].len <= MBYTE && chunks[k].rptr + chunks[k].len <= top
  }
}
