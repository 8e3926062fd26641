/*
 * The block walker of the channel test (`analyse`): it walks a buffer of
 * 16-bit words read from the FIFO block by block, checks each block's type,
 * length and token against the test being run, sign-extends the samples of
 * the data blocks in place and counts how often each channel was seen.
 *
 * A word is the bit pattern of one of the source's `short`s, as a number in
 * [0, 0x10000); the source's shifts and masks on the (sign-extended) short
 * pick the same bits as the divisions and remainders below.
 */
module Blocks {
  import opened RegMap
  import opened Fifo

  type Word16 = x: int | 0 <= x < 0x1_0000

  /** A control word: bit 15 set. */
  predicate IsControl(w: Word16)
  {
    w / 0x8000 % 2 == 1
  }

  /** The number of words a control word announces: bits 8:0. */
  function Length(w: Word16): nat
  {
    w % 0x200
  }

  /** Channel number of a block: bits 14:9 of its control word. */
  function Channel(head: Word16): (chn: nat)
    ensures chn < 64
  {
    head / 0x200 % 64
  }

  /** Block type: bits 14:12 of the word after the control word. */
  function BlockType(second: Word16): nat
  {
    second / 0x1000 % 8
  }

  /** The token of a block: bits 9:0 of the word after the control word. */
  function TokenOf(second: Word16): nat
  {
    second % 0x400
  }

  /** Bit 10 of the word after the control word, which a master-trigger block must have clear. */
  predicate TokenFlag(second: Word16)
  {
    second / 0x400 % 2 == 1
  }

  /** The mask forms the source writes select the same fields. */
  lemma FieldsAsWritten(head: Word16, second: Word16, token: int)
    ensures Channel(head) == And(head / 0x200, 0x3F)
    ensures BlockType(second) == And(second / 0x1000, 7)
    ensures TokenOf(second) == And(second, 0x3FF)
    ensures token % 0x400 == And(token, 0x3FF)
  {
    assert Pow2(3) == 8 && Pow2(6) == 64 && Pow2(10) == 0x400;
    AndLowBits(head / 0x200, 6);
    AndLowBits(second / 0x1000, 3);
    AndLowBits(second, 10);
    AndLowBits(token, 10);
  }

  // ---------------------------------------------------------------- one block

  /** Counters of `pres`: channels 0..63, the four history blocks 64..67, the trigger block 68. */
  const SLOTS: nat := 69
  const TRIGGER_SLOT: nat := 68

  /**
   * What one block does to the walk: the errors it adds, the counter it
   * bumps (-1: none) and whether its samples are sign-extended.
   */
  datatype Check = Check(errs: nat, slot: int, extend: bool)

  /** A token mismatch: bits 9:0 differ from the expected token, or bit 10 is set. */
  predicate BadToken(second: Word16, token: int)
  {
    token % 0x400 != TokenOf(second) || TokenFlag(second)
  }

  /**
   * The check of a block with control word `head` and second word `second`
   * in a self-trigger test (`ttype` < 0) or a master-trigger test.
   */
  function Judge(head: Word16, second: Word16, ttype: int, token: int, blklen: int): (c: Check)
    ensures c.slot == -1 || 0 <= c.slot < SLOTS
    ensures c.extend ==> c.slot != -1
    ensures c.errs == 0 ==> c.slot != -1
    ensures ttype < 0 ==> (c.errs == 0 <==> BlockType(second) == 0)
    ensures ttype < 0 && c.errs == 0 ==> c.slot == Channel(head) && c.extend
    ensures ttype >= 0 && BadToken(second, token) ==> c.errs >= 1
    ensures ttype >= 0 && BlockType(second) == 2 && Length(head) != 7 ==> c.errs >= 1 && c.slot == -1
    ensures ttype >= 0 && BlockType(second) in {1, 4} && Length(head) != blklen ==> c.errs >= 1 && c.slot == -1
    ensures ttype >= 0 && BlockType(second) !in {1, 2, 4} ==> c.errs >= 1 && c.slot == -1
    ensures ttype >= 0 && BlockType(second) == 1 && Length(head) == blklen ==>
              c.slot == Channel(head) && c.extend && (c.errs == 0 <==> !BadToken(second, token))
    ensures ttype >= 0 && BlockType(second) == 4 && Length(head) == blklen ==>
              c.slot == 64 + Channel(head) / 16 && c.extend && (c.errs == 0 <==> !BadToken(second, token))
    ensures ttype >= 0 && BlockType(second) == 2 && Length(head) == 7 ==>
              c.slot == TRIGGER_SLOT && !c.extend
              && (c.errs == 0 <==> !BadToken(second, token) && Channel(head) / 32 % 2 == 0
                                   && (Channel(head) % 16 == 15 || Channel(head) / 16 % 2 == 1))
  {
    var rlen, chn, blktype := Length(head), Channel(head), BlockType(second);
    if ttype < 0 then
      if blktype != 0 then Check(1, -1, false) else Check(0, chn, true)
    else
      var tok := if BadToken(second, token) then 1 else 0;
      if blktype == 2 then
        if rlen != 7 then Check(tok + 1, -1, false)
        else
          var source := chn % 16 == 15 || chn / 16 % 2 == 1;
          Check(tok + (if !source || chn / 32 % 2 == 1 then 1 else 0), TRIGGER_SLOT, false)
      else if blktype == 4 then
        if rlen != blklen then Check(tok + 1, -1, false) else Check(tok, 64 + chn / 16, true)
      else if blktype == 1 then
        if rlen != blklen then Check(tok + 1, -1, false) else Check(tok, chn, true)
      else Check(tok + 1, -1, false)
  }

  // ---------------------------------------------------------------- sign extension

  /** A word read as the source's `short`. */
  function Signed16(w: Word16): int
  {
    if w >= 0x8000 then w - 0x1_0000 else w
  }

  /** A 15-bit sample read as a two's complement number. */
  function Signed15(w: int): int
  {
    if w >= 0x4000 then w - 0x8000 else w
  }

  /**
   * The sign extension of one sample: bit 14 set makes bit 15 set
   * (`buf[k] |= 0x8000`).  A data word then reads, as a `short`, as its
   * 15-bit sample; bits 14:0 never change.
   */
  function Extended(w: Word16): (x: Word16)
    ensures x % 0x8000 == w % 0x8000
    ensures w < 0x8000 ==> Signed16(x) == Signed15(w)
  {
    if w < 0x8000 && w / 0x4000 % 2 == 1 then w + 0x8000 else w
  }

  /** `ws` with the words at indices [from, to) sign-extended. */
  function ExtendRange(ws: seq<Word16>, from: int, to: int): (r: seq<Word16>)
    ensures |r| == |ws|
    ensures forall k :: 0 <= k < |ws| ==> r[k] == if from <= k < to then Extended(ws[k]) else ws[k]
  {
    seq(|ws|, k requires 0 <= k < |ws| => if from <= k < to then Extended(ws[k]) else ws[k])
  }

  /** The sign-extension loop of a data block: the `count` samples from index `at`. */
  method ExtendSigns(buf: array<Word16>, at: int, count: int)
    requires 0 <= at && at + count <= buf.Length
    modifies buf
    ensures buf[..] == ExtendRange(old(buf[..]), at, at + count)
  {
    ghost var before := buf[..];
    var i := 0;
    while i < count
      invariant 0 <= i <= if count < 0 then 0 else count
      invariant forall k :: 0 <= k < buf.Length ==> buf[k] == if at <= k < at + i then Extended(before[k]) else before[k]
    {
      if buf[at + i] / 0x4000 % 2 == 1 {
        buf[at + i] := Extended(buf[at + i]);
      }
      i := i + 1;
    }
    assert forall k :: 0 <= k < buf.Length ==> buf[..][k] == ExtendRange(before, at, at + count)[k];
  }

  // ---------------------------------------------------------------- the walk

  /** Where the walk stands: errors so far, the channel counters, the words as modified so far. */
  datatype Walked = Walked(errs: nat, pres: seq<nat>, ws: seq<Word16>)

  function NoneSeen(): (pres: seq<nat>)
    ensures |pres| == SLOTS
  {
    seq(SLOTS, _ => 0)
  }

  /** The effect of a checked block of `rlen` words after its control word at index `j`. */
  function Record(t: Walked, c: Check, j: int, rlen: int): (r: Walked)
    requires |t.pres| == SLOTS && (c.slot == -1 || 0 <= c.slot < SLOTS)
    ensures |r.pres| == SLOTS && |r.ws| == |t.ws|
  {
    Walked(t.errs + c.errs,
           if c.slot == -1 then t.pres else t.pres[c.slot := t.pres[c.slot] + 1],
           if c.extend then ExtendRange(t.ws, j + 3, j + rlen + 1) else t.ws)
  }

  /** Where one step of the walk leaves it: the next word to look at, the new state, and whether the walk ends. */
  datatype Move = Move(j: nat, t: Walked, stop: bool)

  /**
   * One step of the walk at word `j`: a data word where a control word is
   * due is an error; a control word announcing no words is alignment
   * filler; a block is checked and skipped.  A block that runs past the
   * last word is one error and ends the walk.
   */
  function Step(ttype: int, token: int, blklen: int, j: nat, t: Walked): (m: Move)
    requires |t.pres| == SLOTS && j < |t.ws|
    ensures m.j > j && |m.t.pres| == SLOTS && |m.t.ws| == |t.ws| && m.t.errs >= t.errs
  {
    var w := t.ws[j];
    if !IsControl(w) then Move(j + 1, t.(errs := t.errs + 1), false)
    else if Length(w) == 0 then Move(j + 1, t, false)
    else if j + Length(w) >= |t.ws| then Move(j + 1, t.(errs := t.errs + 1), true)
    else
      var c := Judge(w, t.ws[j + 1], ttype, token, blklen);
      Move(j + Length(w) + 1, Record(t, c, j, Length(w)), false)
  }

  /** The step over a block that fits. */
  lemma StepBlock(ttype: int, token: int, blklen: int, j: nat, t: Walked, rlen: nat, c: Check)
    requires |t.pres| == SLOTS && j + rlen < |t.ws| && IsControl(t.ws[j]) && rlen == Length(t.ws[j]) && 0 < rlen
    requires c == Judge(t.ws[j], t.ws[j + 1], ttype, token, blklen)
    ensures Step(ttype, token, blklen, j, t) == Move(j + rlen + 1, Record(t, c, j, rlen), false)
  {
  }

  /** The walk from word `j` to the end of the words or the first block that does not fit. */
  function Walk(ttype: int, token: int, blklen: int, j: nat, t: Walked): (r: Walked)
    requires |t.pres| == SLOTS
    ensures |r.pres| == SLOTS && |r.ws| == |t.ws| && r.errs >= t.errs
    decreases |t.ws| - j
  {
    if j >= |t.ws| then t
    else
      var m := Step(ttype, token, blklen, j, t);
      if m.stop then m.t else Walk(ttype, token, blklen, m.j, m.t)
  }

  /** Sign extension once is sign extension for good. */
  lemma ExtendedTwice(w: Word16)
    ensures Extended(Extended(w)) == Extended(w)
  {
  }

  /** The walk changes a word only by sign-extending it. */
  lemma {:induction false} WalkOnlyExtends(ttype: int, token: int, blklen: int, j: nat, t: Walked)
    requires |t.pres| == SLOTS
    ensures var r := Walk(ttype, token, blklen, j, t);
            forall k :: 0 <= k < |t.ws| ==> r.ws[k] == t.ws[k] || r.ws[k] == Extended(t.ws[k])
    decreases |t.ws| - j
  {
    if j < |t.ws| {
      var m := Step(ttype, token, blklen, j, t);
      assert forall k :: 0 <= k < |t.ws| ==> m.t.ws[k] == t.ws[k] || m.t.ws[k] == Extended(t.ws[k]);
      if !m.stop {
        WalkOnlyExtends(ttype, token, blklen, m.j, m.t);
        forall k | 0 <= k < |t.ws|
          ensures Walk(ttype, token, blklen, j, t).ws[k] in {t.ws[k], Extended(t.ws[k])}
        {
          ExtendedTwice(t.ws[k]);
        }
      }
    }
  }

  /** The number of counters among the first `m` that are not exactly one. */
  function Missing(pres: seq<nat>, m: nat): nat
    requires m <= |pres|
  {
    if m == 0 then 0 else Missing(pres, m - 1) + (if pres[m - 1] != 1 then 1 else 0)
  }

  /** The counters among the first `m` that are not exactly one. */
  ghost function Off(pres: seq<nat>, m: nat): set<int>
    requires m <= |pres|
  {
    set i | 0 <= i < m && pres[i] != 1
  }

  /** Missing counts the channels seen never or more than once. */
  lemma {:induction false} MissingIsCount(pres: seq<nat>, m: nat)
    requires m <= |pres|
    ensures Missing(pres, m) == |Off(pres, m)|
  {
    if m > 0 {
      MissingIsCount(pres, m - 1);
      OffGrows(pres, m);
    }
  }

  lemma OffGrows(pres: seq<nat>, m: nat)
    requires 0 < m <= |pres|
    ensures Off(pres, m) == Off(pres, m - 1) + (if pres[m - 1] != 1 then {m - 1} else {})
    ensures m - 1 !in Off(pres, m - 1)
  {
  }

  /** The counters checked at the end: the 64 channels, and in a master-trigger test the history and trigger blocks too. */
  function Slots(ttype: int): nat
  {
    if ttype > 0 then SLOTS else 64
  }

  /** The error count and the buffer the channel test's analysis leaves for the words `ws`. */
  function Analysis(ws: seq<Word16>, ttype: int, token: int, blklen: int): (r: (nat, seq<Word16>))
    ensures |r.1| == |ws|
  {
    var w := Walk(ttype, token, blklen, 0, Walked(0, NoneSeen(), ws));
    (w.errs + Missing(w.pres, Slots(ttype)), w.ws)
  }

  /**
   * analyse: walks the `len` bytes of `buf`, sign-extending the samples of
   * the data blocks in place, and returns the errors: the walk's, plus one
   * per counted channel not seen exactly once.  Words past `len` are neither
   * read nor written.
   */
  method Analyse(buf: array<Word16>, len: int, ttype: int, token: int, blklen: int) returns (errcnt: int)
    requires 0 <= len && len / 2 <= buf.Length
    modifies buf
    ensures errcnt == Analysis(old(buf[..len / 2]), ttype, token, blklen).0
    ensures buf[..len / 2] == Analysis(old(buf[..len / 2]), ttype, token, blklen).1
    ensures buf[len / 2..] == old(buf[len / 2..])
  {
    var n := len / 2;
    var pres := new nat[SLOTS](_ => 0);
    assert pres[..] == NoneSeen();
    ghost var walked := Walk(ttype, token, blklen, 0, Walked(0, NoneSeen(), buf[..n]));
    assert buf[..n] == old(buf[..n]);
    assert Analysis(old(buf[..n]), ttype, token, blklen) == (walked.errs + Missing(walked.pres, Slots(ttype)), walked.ws);
    errcnt := 0;
    var j := 0;
    ghost var cur := Walked(0, NoneSeen(), buf[..n]);
    while j < n
      invariant 0 <= j <= n && errcnt >= 0
      invariant buf[n..] == old(buf[n..])
      invariant cur == Walked(errcnt, pres[..], buf[..n])
      invariant walked == Walk(ttype, token, blklen, j, cur)
      decreases n - j
    {
      ghost var m := Step(ttype, token, blklen, j, cur);
      assert walked == if m.stop then m.t else Walk(ttype, token, blklen, m.j, m.t);
      j, errcnt := Advance(buf, pres, n, j, errcnt, ttype, token, blklen);
      cur := m.t;
    }
    assert walked == Walked(errcnt, pres[..], buf[..n]);
    var missing := CountMissing(pres, Slots(ttype));
    errcnt := errcnt + missing;
  }

  /** One pass of the walk's loop: the step at word `j`, ending at `n` when the walk stops. */
  method Advance(buf: array<Word16>, pres: array<nat>, n: int, j: int, errcnt: nat, ttype: int, token: int, blklen: int)
    returns (j': int, errcnt': nat)
    requires pres.Length == SLOTS && 0 <= j < n <= buf.Length
    modifies buf, pres
    ensures var m := Step(ttype, token, blklen, j, Walked(errcnt, old(pres[..]), old(buf[..n])));
            Walked(errcnt', pres[..], buf[..n]) == m.t && j' == if m.stop then n else m.j
    ensures buf[n..] == old(buf[n..])
  {
    ghost var cur := Walked(errcnt, pres[..], buf[..n]);
    var w := buf[j];
    assert cur.ws[j] == w;
    if !IsControl(w) {
      errcnt', j' := errcnt + 1, j + 1;
    } else if Length(w) == 0 {
      errcnt', j' := errcnt, j + 1;
    } else if j + Length(w) >= n {
      errcnt', j' := errcnt + 1, n;
    } else {
      var rlen := Length(w);
      assert cur.ws[j + 1] == buf[j + 1];
      var c := Judge(w, buf[j + 1], ttype, token, blklen);
      StepBlock(ttype, token, blklen, j, cur, rlen, c);
      errcnt' := Apply(buf, pres, n, j, rlen, c, errcnt);
      j' := j + rlen + 1;
    }
  }

  /** The count of the first `m` counters that are not exactly one. */
  method CountMissing(pres: array<nat>, m: int) returns (k: nat)
    requires 0 <= m <= pres.Length
    ensures k == Missing(pres[..], m)
  {
    k := 0;
    var i := 0;
    while i < m
      invariant 0 <= i <= m && k == Missing(pres[..], i)
    {
      if pres[i] != 1 {
        k := k + 1;
      }
      i := i + 1;
    }
  }

  /** The effect of a checked block on the walk's state: its errors, its counter and the sign extension of its samples. */
  method Apply(buf: array<Word16>, pres: array<nat>, n: int, j: int, rlen: int, c: Check, errcnt: nat) returns (errcnt': nat)
    requires pres.Length == SLOTS && (c.slot == -1 || 0 <= c.slot < SLOTS)
    requires 0 <= j && 0 < rlen && j + rlen < n <= buf.Length
    modifies buf, pres
    ensures Walked(errcnt', pres[..], buf[..n]) == Record(Walked(errcnt, old(pres[..]), old(buf[..n])), c, j, rlen)
    ensures buf[n..] == old(buf[n..])
  {
    errcnt' := errcnt + c.errs;
    if c.extend {
      ExtendSigns(buf, j + 3, rlen - 2);
      assert buf[..n] == ExtendRange(old(buf[..n]), j + 3, j + rlen + 1);
    }
    if c.slot != -1 {
      pres[c.slot] := pres[c.slot] + 1;
    }
  }

  // ---------------------------------------------------------------- the walk as the source writes it

  /**
   * The source's walk over the `n` words of a longer buffer `t.ws`: it has
   * no check that a block fits, so it reads the word after a control word
   * and sign-extends samples past word `n`.  The buffer is taken to hold
   * at least the word after word `n - 1`.
   */
  function WalkAsWritten(ttype: int, token: int, blklen: int, n: nat, j: nat, t: Walked): (r: Walked)
    requires |t.pres| == SLOTS && n < |t.ws|
    ensures |r.pres| == SLOTS && |r.ws| == |t.ws|
    decreases n - j
  {
    if j >= n then t
    else
      var m := StepAsWritten(ttype, token, blklen, j, t);
      WalkAsWritten(ttype, token, blklen, n, m.j, m.t)
  }

  /** The source's step at word `j`: a control word's block is taken whole, whatever its length. */
  function StepAsWritten(ttype: int, token: int, blklen: int, j: nat, t: Walked): (m: Move)
    requires |t.pres| == SLOTS && j + 1 < |t.ws|
    ensures m.j > j && |m.t.pres| == SLOTS && |m.t.ws| == |t.ws|
  {
    var w := t.ws[j];
    if !IsControl(w) then Move(j + 1, t.(errs := t.errs + 1), false)
    else if Length(w) == 0 then Move(j + 1, t, false)
    else
      var c := Judge(w, t.ws[j + 1], ttype, token, blklen);
      Move(j + Length(w) + 1, Record(t, c, j, Length(w)), false)
  }

  /**
   * A buffer of one word holding a control word (bit 15 set) that announces
   * one more word (bits 8:0 hold 1), 0x8001 say: the source's verdict on a
   * self-trigger test depends on the word after the buffer (it passes when
   * that word reads as block type 0 and fails otherwise), while the
   * corrected walk counts the truncated block as one error whatever follows.
   */
  lemma TruncatedBlock(head: Word16, next: Word16)
    requires head / 0x8000 % 2 == 1 && head % 0x200 == 1
    ensures WalkAsWritten(-1, 0, 0, 1, 0, Walked(0, NoneSeen(), [head, next])).errs == if BlockType(next) == 0 then 0 else 1
    ensures Walk(-1, 0, 0, 0, Walked(0, NoneSeen(), [head])).errs == 1
  {
    var t := Walked(0, NoneSeen(), [head, next]);
    var m := StepAsWritten(-1, 0, 0, 0, t);
    assert m.t.errs == Judge(head, next, -1, 0, 0).errs;
    assert WalkAsWritten(-1, 0, 0, 1, 0, t) == m.t;
    var u := Walked(0, NoneSeen(), [head]);
    assert Step(-1, 0, 0, 0, u) == Move(1, u.(errs := 1), true);
  }

  /** The walk frames words as the FIFO scan does: the same control bit, the same announced length. */
  lemma SameFraming(w: Word16)
    ensures IsControl(w) == Control(w) && Length(w) == Announced(w)
  {
    ControlIsBit15(w);
    AnnouncedIsLowBits(w);
  }

  lemma ControlIsBit15(w: int)
    ensures Control(w) <==> w / 0x8000 % 2 == 1
  {
    Pow2Of15();
    assert Pow2(1) == 2;
    AndShifted(w, 1, 15);
    AndLowBits(w / 0x8000, 1);
  }

  lemma AnnouncedIsLowBits(w: int)
    ensures Announced(w) == w % 0x200
  {
    Pow2Of9();
    AndLowBits(w, 9);
  }

  lemma Pow2Of9()
    ensures Pow2(9) == 0x200
  {
    assert Pow2(5) == 32;
  }

  lemma Pow2Of15()
    ensures Pow2(15) == 0x8000
  {
    assert Pow2(5) == 32;
    assert Pow2(10) == 32 * Pow2(5);
  }
}
