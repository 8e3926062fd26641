/*
 * The loader of the Si5338 clock synthesizer behind a slave Xilinx
 * (ConfigureSlaveClock).  It reads a register file written by the vendor's
 * ClockBuilder tool: one `#define NAME N` line announcing N registers, then
 * lines `{reg, val, mask}`.  It programs each listed register under its mask
 * and reads it back, then runs the chip's lock-and-calibrate sequence.
 *
 * The file is a sequence of lines, each as fgets returns it.  The chip is
 * seen through the two calls the loader makes, L2CRead and L2CWrite (their
 * bus scripts are in Protocols): a map from register to byte, the values
 * its status register shows on successive reads, and which of the
 * successive transfers fail.
 */
module Si5338 {
  import opened RegMap
  import opened Script

  // ---------------------------------------------------------------- tokens

  /** The characters the loader splits a line at (its DELIM string). */
  predicate IsDelim(c: char)
  {
    c == ' ' || c == '\t' || c == '\r' || c == ',' || c == '#' || c == '{' || c == '}'
  }

  /** No character of `t` is a delimiter. */
  predicate Undelimited(t: string)
  {
    forall i :: 0 <= i < |t| ==> !IsDelim(t[i])
  }

  /** The length of the run of non-delimiters that `s` starts with. */
  function RunLen(s: string): (n: nat)
    ensures n <= |s| && Undelimited(s[..n])
    ensures n < |s| ==> IsDelim(s[n])
  {
    if |s| == 0 || IsDelim(s[0]) then 0
    else
      var n := 1 + RunLen(s[1..]);
      assert s[..n] == [s[0]] + s[1..][..n - 1];
      n
  }

  /** The tokens strtok hands out for `s`: its maximal runs of non-delimiters, in order. */
  function Tokens(s: string): (ts: seq<string>)
    ensures forall k :: 0 <= k < |ts| ==> |ts[k]| > 0 && Undelimited(ts[k])
    decreases |s|
  {
    if |s| == 0 then []
    else if IsDelim(s[0]) then Tokens(s[1..])
    else
      var n := RunLen(s);
      [s[..n]] + Tokens(s[n..])
  }

  /** A string made of delimiters only. */
  predicate AllDelims(p: string)
  {
    forall i :: 0 <= i < |p| ==> IsDelim(p[i])
  }

  /** A run of non-delimiters ends where a delimiter or the string ends. */
  lemma {:induction false} RunOf(t: string, r: string)
    requires Undelimited(t)
    requires |r| == 0 || IsDelim(r[0])
    ensures RunLen(t + r) == |t|
    decreases |t|
  {
    if |t| > 0 {
      assert (t + r)[1..] == t[1..] + r;
      RunOf(t[1..], r);
    } else {
      assert t + r == r;
    }
  }

  /**
   * Splitting `p + t + r` where `p` is delimiters and `t` one token that a
   * delimiter or the end of the string closes: `t` is the next token.
   */
  lemma {:induction false} TokenAfter(p: string, t: string, r: string)
    requires AllDelims(p) && |t| > 0 && Undelimited(t)
    requires |r| == 0 || IsDelim(r[0])
    ensures Tokens(p + t + r) == [t] + Tokens(r)
    decreases |p|
  {
    if |p| > 0 {
      assert (p + t + r)[1..] == p[1..] + t + r;
      TokenAfter(p[1..], t, r);
    } else {
      assert p + t + r == t + r;
      RunOf(t, r);
      assert (t + r)[..|t|] == t && (t + r)[|t|..] == r;
    }
  }

  // ---------------------------------------------------------------- numbers

  /** A decimal digit, the test the loader makes before converting a token. */
  predicate IsDigit(c: char)
  {
    '0' <= c <= '9'
  }

  /** The value of a digit character in bases up to 16; 16 for any other character. */
  function DigitOf(c: char): (v: nat)
    ensures v <= 16
    ensures v < 10 <==> IsDigit(c)
    ensures v < 16 ==> !IsDelim(c)
  {
    if '0' <= c <= '9' then c as nat - '0' as nat
    else if 'a' <= c <= 'f' then c as nat - 'a' as nat + 10
    else if 'A' <= c <= 'F' then c as nat - 'A' as nat + 10
    else 16
  }

  /** The length of the run of digits of base `base` that `s` starts with. */
  function DigitRun(s: string, base: nat): (n: nat)
    ensures n <= |s|
    ensures n < |s| ==> DigitOf(s[n]) >= base
  {
    if |s| == 0 || DigitOf(s[0]) >= base then 0 else 1 + DigitRun(s[1..], base)
  }

  /** The number the digits `ds` spell in base `base`, most significant first. */
  function Value(ds: string, base: nat): nat
  {
    if |ds| == 0 then 0 else Value(ds[..|ds| - 1], base) * base + DigitOf(ds[|ds| - 1])
  }

  /** The number spelt by the digits of base `base` that `s` starts with. */
  function Leading(s: string, base: nat): nat
  {
    Value(s[..DigitRun(s, base)], base)
  }

  /**
   * strtol(tok, NULL, 0) on a token that starts with a decimal digit:
   * hexadecimal after "0x" or "0X" and a hexadecimal digit, octal after any
   * other leading 0, decimal otherwise; the conversion stops at the first
   * character that is not a digit of its base.
   */
  function Strtol(tok: string): nat
    requires |tok| > 0 && IsDigit(tok[0])
  {
    if tok[0] == '0' && |tok| >= 3 && (tok[1] == 'x' || tok[1] == 'X') && DigitOf(tok[2]) < 16 then
      Leading(tok[2..], 16)
    else if tok[0] == '0' then Leading(tok, 8)
    else Leading(tok, 10)
  }

  /** The lower-case digit character of value `v`. */
  function DigitChar(v: nat): (c: char)
    requires v < 16
    ensures DigitOf(c) == v
  {
    if v < 10 then ('0' as int + v) as char else ('a' as int + v - 10) as char
  }

  /** Division of `n` by a base it is not below leaves a smaller, positive quotient. */
  lemma DivStep(n: nat, base: nat)
    requires 2 <= base <= n
    ensures 1 <= n / base < n && n % base < base && n == n / base * base + n % base
  {
    var q, r := n / base, n % base;
    assert n == base * q + r && 0 <= r < base;
    assert base * q == 2 * q + (base - 2) * q;
  }

  /** `n` written in base `base`, without leading zeros. */
  function Numeral(n: nat, base: nat): (s: string)
    requires 2 <= base <= 16
    ensures |s| > 0 && forall i :: 0 <= i < |s| ==> DigitOf(s[i]) < base
    ensures n > 0 ==> DigitOf(s[0]) > 0
    decreases n
  {
    if n < base then [DigitChar(n)]
    else
      DivStep(n, base);
      var s := Numeral(n / base, base) + [DigitChar(n % base)];
      assert s[0] == Numeral(n / base, base)[0];
      s
  }

  /** Reading back a numeral gives the number written. */
  lemma {:induction false} ValueOfNumeral(n: nat, base: nat)
    requires 2 <= base <= 16
    ensures Value(Numeral(n, base), base) == n
    decreases n
  {
    var s := Numeral(n, base);
    if n < base {
      assert s[..0] == [];
    } else {
      DivStep(n, base);
      ValueOfNumeral(n / base, base);
      assert s[..|s| - 1] == Numeral(n / base, base);
    }
  }

  /** A run of digits followed by a non-digit (or nothing) is read to its end. */
  lemma {:induction false} RunOfDigits(ds: string, rest: string, base: nat)
    requires forall i :: 0 <= i < |ds| ==> DigitOf(ds[i]) < base
    requires |rest| == 0 || DigitOf(rest[0]) >= base
    ensures DigitRun(ds + rest, base) == |ds|
    decreases |ds|
  {
    if |ds| > 0 {
      assert (ds + rest)[1..] == ds[1..] + rest;
      RunOfDigits(ds[1..], rest, base);
    } else {
      assert ds + rest == rest;
    }
  }

  /** `rest` cannot continue a number: it is empty or starts with neither a hexadecimal digit nor an x. */
  predicate Stops(rest: string)
  {
    |rest| == 0 || (DigitOf(rest[0]) == 16 && rest[0] != 'x' && rest[0] != 'X')
  }

  /** strtol reads a decimal numeral back, whatever non-numeric text follows it. */
  lemma StrtolDecimal(n: nat, rest: string)
    requires Stops(rest)
    ensures var tok := Numeral(n, 10) + rest; IsDigit(tok[0]) && Strtol(tok) == n
  {
    if n == 0 {
      StrtolZero(rest);
    } else {
      var s := Numeral(n, 10);
      var tok := s + rest;
      assert tok[0] == s[0];
      assert tok[..|s|] == s;
      RunOfDigits(s, rest, 10);
      ValueOfNumeral(n, 10);
      assert Strtol(tok) == Value(s, 10);
    }
  }

  /** strtol reads "0" as 0, whatever non-numeric text follows it. */
  lemma StrtolZero(rest: string)
    requires Stops(rest)
    ensures var tok := Numeral(0, 10) + rest; IsDigit(tok[0]) && Strtol(tok) == 0
  {
    var s := Numeral(0, 10);
    var tok := s + rest;
    assert s == "0";
    assert tok[0] == '0' && tok[..1] == s;
    if |rest| > 0 {
      assert tok[1] == rest[0];
    }
    RunOfDigits(s, rest, 8);
    assert Value(s[..0], 8) == 0;
  }

  /** strtol reads a hexadecimal numeral after "0x" back. */
  lemma StrtolHex(n: nat)
    ensures var tok := "0x" + Numeral(n, 16); IsDigit(tok[0]) && Strtol(tok) == n
  {
    var s := Numeral(n, 16);
    var tok := "0x" + s;
    assert tok[2] == s[0] && tok[2..] == s + [];
    RunOfDigits(s, [], 16);
    assert s[..|s|] == s;
    ValueOfNumeral(n, 16);
  }

  // ---------------------------------------------------------------- the file

  /** The first character of `line` is `c`; fgets never returns an empty line, and "" stands for one it could not read. */
  predicate StartsWith(line: string, c: char)
  {
    |line| > 0 && line[0] == c
  }

  /** The register count a '#' line announces: its third token, when that starts with a digit, else -1. */
  function CountOn(line: string): int
  {
    var ts := Tokens(line);
    if |ts| < 3 || !IsDigit(ts[2][0]) then -1 else Strtol(ts[2])
  }

  /** The index of the first line starting with '#', or |lines| when there is none. */
  function HeaderAt(lines: seq<string>): (k: nat)
    ensures k <= |lines|
    ensures k < |lines| ==> StartsWith(lines[k], '#')
    ensures forall i :: 0 <= i < k ==> !StartsWith(lines[i], '#')
  {
    if |lines| == 0 then 0
    else if StartsWith(lines[0], '#') then 0
    else 1 + HeaderAt(lines[1..])
  }

  /** The count the file announces: -1 when it has no '#' line. */
  function HeaderCount(lines: seq<string>): int
  {
    var k := HeaderAt(lines);
    if k < |lines| then CountOn(lines[k]) else -1
  }

  /** The lines after the header line, which the programming loop reads. */
  function Body(lines: seq<string>): seq<string>
  {
    var k := HeaderAt(lines);
    if k < |lines| then lines[k + 1..] else []
  }

  /** One `{reg, val, mask}` line: the register number and the value and mask truncated to bytes. */
  datatype Entry = Entry(reg: int, val: bv8, mask: bv8)

  /** A number truncated to an `unsigned char`. */
  function ToByte(n: nat): bv8
  {
    Byte(n) as bv8
  }

  /** A byte read as a number truncates back to itself. */
  lemma ToByteOf(b: bv8)
    ensures ToByte(b as nat) == b
  {
    var x := b as nat;
    assert x < 256;
    assert Byte(x) == x;
  }

  /**
   * A '{' line: None when a token is missing or does not start with a digit,
   * or the register number exceeds 511.
   */
  function ParseEntry(line: string): (p: Option<Entry>)
    ensures p.Some? ==> 0 <= p.value.reg <= 511
  {
    var ts := Tokens(line);
    if |ts| < 1 || !IsDigit(ts[0][0]) then None
    else if Strtol(ts[0]) > 511 then None
    else if |ts| < 3 || !IsDigit(ts[1][0]) || !IsDigit(ts[2][0]) then None
    else Some(Entry(Strtol(ts[0]), ToByte(Strtol(ts[1])), ToByte(Strtol(ts[2]))))
  }

  /** A '{' line is accepted exactly when it has three tokens starting with digits and the first reads as at most 511. */
  lemma ParseEntryAccepts(line: string)
    ensures var ts := Tokens(line); ParseEntry(line).Some? <==>
      |ts| >= 3 && IsDigit(ts[0][0]) && IsDigit(ts[1][0]) && IsDigit(ts[2][0]) && Strtol(ts[0]) <= 511
  {
  }

  /** A line as the programming loop sees it: not an entry line, a '{' line that does not parse, or an entry. */
  datatype Line = Other | Malformed | Item(e: Entry)

  /** How the programming loop takes one line. */
  function Classify(line: string): Line
  {
    if !StartsWith(line, '{') then Other
    else match ParseEntry(line)
      case None => Malformed
      case Some(e) => Item(e)
  }

  /** Every line classified, in order. */
  function Classified(lines: seq<string>): (cs: seq<Line>)
    ensures |cs| == |lines|
  {
    if |lines| == 0 then [] else [Classify(lines[0])] + Classified(lines[1..])
  }

  /** The entries among classified lines, up to the first malformed one. */
  function Items(cs: seq<Line>): seq<Entry>
  {
    if |cs| == 0 then []
    else match cs[0]
      case Other => Items(cs[1..])
      case Malformed => []
      case Item(e) => [e] + Items(cs[1..])
  }

  /** The entries of the lines read after the header: every '{' line up to the first that does not parse. */
  function Entries(lines: seq<string>): seq<Entry>
  {
    Items(Classified(lines))
  }

  /** Classifying from line `i` on is classifying line `i`, then the lines after it. */
  lemma ClassifiedFrom(lines: seq<string>, i: nat)
    requires i < |lines|
    ensures Classified(lines[i..]) == [Classify(lines[i])] + Classified(lines[i + 1..])
  {
    assert lines[i..][1..] == lines[i + 1..];
  }

  /** Parsing stops at a malformed '{' line: nothing after it is programmed. */
  lemma {:induction false} EntriesStop(lines: seq<string>, k: nat)
    requires k < |lines| && Classify(lines[k]) == Malformed
    ensures Entries(lines) == Entries(lines[..k])
    decreases k
  {
    var cs := Classified(lines);
    assert cs[1..] == Classified(lines[1..]);
    if k == 0 {
      assert lines[..0] == [];
    } else {
      EntriesStop(lines[1..], k - 1);
      var pre := lines[..k];
      assert pre[1..] == lines[1..][..k - 1];
      assert Classified(pre)[1..] == Classified(pre[1..]);
      assert Classified(pre)[0] == cs[0];
    }
  }

  /** The line ClockBuilder writes for the count, `#define NUM_REGS_MAX n`. */
  function HeaderLine(n: nat): string
  {
    "#" + "define" + " " + "NUM_REGS_MAX" + " " + (Numeral(n, 10) + "\n")
  }

  /** The line ClockBuilder writes for an entry, `{reg,0xval,0xmask},`. */
  function EntryLine(e: Entry): string
    requires e.reg >= 0
  {
    "{" + Numeral(e.reg, 10) + "," + ("0x" + Numeral(e.val as nat, 16)) + "," + ("0x" + Numeral(e.mask as nat, 16)) + "},\n"
  }

  /** A register file listing `es`. */
  function File(es: seq<Entry>): seq<string>
    requires forall k :: 0 <= k < |es| ==> es[k].reg >= 0
  {
    [HeaderLine(|es|)] + seq(|es|, k requires 0 <= k < |es| => EntryLine(es[k]))
  }

  /** The first three tokens of a line made of three tokens between runs of delimiters. */
  lemma ThreeTokens(p1: string, t1: string, p2: string, t2: string, p3: string, t3: string, r: string)
    requires AllDelims(p1) && AllDelims(p2) && AllDelims(p3) && |p2| > 0 && |p3| > 0
    requires |t1| > 0 && Undelimited(t1) && |t2| > 0 && Undelimited(t2) && |t3| > 0 && Undelimited(t3)
    requires |r| == 0 || IsDelim(r[0])
    ensures var ts := Tokens(p1 + t1 + p2 + t2 + p3 + t3 + r); |ts| >= 3 && ts[0] == t1 && ts[1] == t2 && ts[2] == t3
  {
    var r3 := p3 + t3 + r;
    var r2 := p2 + t2 + r3;
    TokenAfter(p3, t3, r);
    TokenAfter(p2, t2, r3);
    TokenAfter(p1, t1, r2);
    var x := p1 + t1;
    Regroup(x, p2, t2);
    var a := x + p2 + t2;
    Regroup(a, p3, t3);
    Regroup(a, p3 + t3, r);
    Regroup(x, p2 + t2, r3);
  }

  /** Appending two strings one after the other appends their concatenation. */
  lemma Regroup(a: string, b: string, c: string)
    ensures a + b + c == a + (b + c)
  {
  }

  /** A numeral, possibly after a prefix and before a suffix of non-delimiters, is one token. */
  lemma NumeralUndelimited(p: string, n: nat, base: nat, q: string)
    requires 2 <= base <= 16 && Undelimited(p) && Undelimited(q)
    ensures Undelimited(p + Numeral(n, base) + q)
  {
    var s := p + Numeral(n, base) + q;
    forall i | 0 <= i < |s| ensures !IsDelim(s[i]) {
      if i < |p| {
        assert s[i] == p[i];
      } else if i < |p| + |Numeral(n, base)| {
        assert s[i] == Numeral(n, base)[i - |p|];
      } else {
        assert s[i] == q[i - |p| - |Numeral(n, base)|];
      }
    }
  }

  /** The header line announces its count. */
  lemma CountOfHeader(n: nat)
    ensures CountOn(HeaderLine(n)) == n
  {
    var num := Numeral(n, 10) + "\n";
    NumeralUndelimited([], n, 10, "\n");
    assert [] + Numeral(n, 10) + "\n" == num;
    assert Undelimited("define") && Undelimited("NUM_REGS_MAX");
    ThreeTokens("#", "define", " ", "NUM_REGS_MAX", " ", num, []);
    assert HeaderLine(n) == "#" + "define" + " " + "NUM_REGS_MAX" + " " + num + [];
    StrtolDecimal(n, "\n");
  }

  /** An entry line parses to its entry. */
  lemma ParseOfEntry(e: Entry)
    requires 0 <= e.reg <= 511
    ensures ParseEntry(EntryLine(e)) == Some(e)
  {
    var a := Numeral(e.reg, 10);
    EntryTokens(e);
    StrtolDecimal(e.reg, []);
    assert a + [] == a;
    StrtolHex(e.val as nat);
    StrtolHex(e.mask as nat);
    ToByteOf(e.val);
    ToByteOf(e.mask);
  }

  /** The tokens of an entry line are the register in decimal and the value and mask in hexadecimal. */
  lemma EntryTokens(e: Entry)
    requires e.reg >= 0
    ensures var ts := Tokens(EntryLine(e));
      |ts| >= 3 && ts[0] == Numeral(e.reg, 10) &&
      ts[1] == "0x" + Numeral(e.val as nat, 16) && ts[2] == "0x" + Numeral(e.mask as nat, 16)
  {
    DecimalToken(e.reg);
    HexToken(e.val as nat);
    HexToken(e.mask as nat);
    assert AllDelims("{") && AllDelims(",") && IsDelim("},\n"[0]);
    ThreeTokens("{", Numeral(e.reg, 10), ",", "0x" + Numeral(e.val as nat, 16), ",", "0x" + Numeral(e.mask as nat, 16), "},\n");
  }

  /** A decimal numeral is a token by itself. */
  lemma DecimalToken(n: nat)
    ensures Undelimited(Numeral(n, 10))
  {
    NumeralUndelimited([], n, 10, []);
    assert [] + Numeral(n, 10) + [] == Numeral(n, 10);
  }

  /** A hexadecimal numeral after "0x" is a token by itself. */
  lemma HexToken(n: nat)
    ensures Undelimited("0x" + Numeral(n, 16))
  {
    NumeralUndelimited("0x", n, 16, []);
    assert "0x" + Numeral(n, 16) + [] == "0x" + Numeral(n, 16);
  }

  /** A file ClockBuilder writes reads back as the count and the entries it lists. */
  lemma {:induction false} FileRoundTrip(es: seq<Entry>)
    requires forall k :: 0 <= k < |es| ==> 0 <= es[k].reg <= 511
    ensures HeaderCount(File(es)) == |es|
    ensures Entries(Body(File(es))) == es
  {
    var f := File(es);
    assert HeaderAt(f) == 0;
    CountOfHeader(|es|);
    EntriesOfLines(es);
  }

  lemma {:induction false} EntriesOfLines(es: seq<Entry>)
    requires forall k :: 0 <= k < |es| ==> 0 <= es[k].reg <= 511
    ensures Entries(seq(|es|, k requires 0 <= k < |es| => EntryLine(es[k]))) == es
  {
    var ls := seq(|es|, k requires 0 <= k < |es| => EntryLine(es[k]));
    if |es| > 0 {
      ParseOfEntry(es[0]);
      assert Classify(ls[0]) == Item(es[0]);
      EntriesOfLines(es[1..]);
      assert ls[1..] == seq(|es[1..]|, k requires 0 <= k < |es[1..]| => EntryLine(es[1..][k]));
      var cs := Classified(ls);
      assert cs[0] == Item(es[0]) && cs[1..] == Classified(ls[1..]);
      assert es == [es[0]] + es[1..];
    }
  }

  // ---------------------------------------------------------------- the chip

  /** A call the loader makes: L2CRead of a register, or L2CWrite of a byte to it. */
  datatype Op = Get(reg: int) | Put(reg: int, val: bv8)

  /**
   * The Si5338 as the loader sees it: the bytes of its registers, the
   * values its status register shows on successive reads (all clear once
   * the sequence runs out), which of the successive transfers fail with a
   * timeout or a missing acknowledge (none once the sequence runs out), and
   * the calls made so far.
   */
  datatype Device = Device(regs: map<int, bv8>, status: seq<bv8>, faults: seq<bool>, ops: seq<Op>)

  /** The byte in register `r`. */
  function Stored(regs: map<int, bv8>, r: int): bv8
  {
    if r in regs then regs[r] else 0
  }

  /** The `k`-th value the status register will show. */
  function StatusAt(s: seq<bv8>, k: nat): bv8
  {
    if k < |s| then s[k] else 0
  }

  function Rest<T>(s: seq<T>): seq<T>
  {
    if |s| == 0 then [] else s[1..]
  }

  /**
   * What L2CRead returns: -10 when the transfer fails, else the byte read.
   * The loader only uses it truncated to a byte, so -10 stands as its low
   * byte 0xF6 (its two's-complement pattern is 0xFFFFFFF6).
   */
  datatype Reply = Nak | Data(b: bv8)

  /** The low byte of L2CRead's result. */
  function Low(x: Reply): bv8
  {
    if x.Nak? then 0xF6 else x.b
  }

  /** The next transfer fails. */
  predicate Fails(d: Device)
  {
    |d.faults| > 0 && d.faults[0]
  }

  /** No transfer will fail. */
  predicate Sound(d: Device)
  {
    forall k :: 0 <= k < |d.faults| ==> !d.faults[k]
  }

  /** L2CRead of register `reg`: Nak when the transfer fails, else the register's byte (for the status register, its next value). */
  function ReadReg(d: Device, reg: int): (Reply, Device)
  {
    var shown := reg == SI5338_REG_STATUS && !Fails(d);
    (if Fails(d) then Nak else Data(if reg == SI5338_REG_STATUS then StatusAt(d.status, 0) else Stored(d.regs, reg)),
     d.(status := if shown then Rest(d.status) else d.status, faults := Rest(d.faults), ops := d.ops + [Get(reg)]))
  }

  /** L2CWrite of byte `v` to register `reg`: -10 when the transfer fails, else 0 with the byte stored. */
  function WriteReg(d: Device, reg: int, v: bv8): (int, Device)
  {
    (if Fails(d) then -10 else 0,
     d.(regs := if Fails(d) then d.regs else d.regs[reg := v], faults := Rest(d.faults), ops := d.ops + [Put(reg, v)]))
  }

  /** What a read returns and leaves: the registers kept, one transfer used, the status register's value consumed when it is read. */
  lemma ReadOf(d: Device, reg: int)
    ensures var r := ReadReg(d, reg);
      && r.1.regs == d.regs && r.1.faults == Rest(d.faults) && r.1.ops == d.ops + [Get(reg)]
      && (r.0.Nak? <==> Fails(d))
      && (!Fails(d) ==> r.0.b == if reg == SI5338_REG_STATUS then StatusAt(d.status, 0) else Stored(d.regs, reg))
      && r.1.status == if !Fails(d) && reg == SI5338_REG_STATUS then Rest(d.status) else d.status
  {
  }

  /** What a write returns and leaves: 0 and the byte stored, or -10 and the registers kept; no other register changes. */
  lemma WriteOf(d: Device, reg: int, v: bv8)
    ensures var r := WriteReg(d, reg, v);
      && r.1.status == d.status && r.1.faults == Rest(d.faults) && r.1.ops == d.ops + [Put(reg, v)]
      && (r.0 == -10 <==> Fails(d)) && (r.0 == 0 <==> !Fails(d))
      && (Fails(d) ==> r.1.regs == d.regs)
      && (!Fails(d) ==> Stored(r.1.regs, reg) == v)
      && forall x :: x != reg ==> Stored(r.1.regs, x) == Stored(d.regs, x)
  {
  }

  /** A transfer on a sound chip succeeds and leaves it sound. */
  lemma SoundStep(d: Device)
    requires Sound(d)
    ensures !Fails(d)
    ensures forall reg :: Sound(ReadReg(d, reg).1)
    ensures forall reg, v :: Sound(WriteReg(d, reg, v).1)
  {
    forall k | 0 <= k < |Rest(d.faults)| ensures !Rest(d.faults)[k] {
      assert Rest(d.faults)[k] == d.faults[k + 1];
    }
  }

  /** A byte written to a register other than the status register reads back, when both transfers succeed. */
  lemma WriteThenRead(d: Device, reg: int, v: bv8)
    requires reg != SI5338_REG_STATUS && !Fails(d) && !Fails(WriteReg(d, reg, v).1)
    ensures ReadReg(WriteReg(d, reg, v).1, reg).0 == Data(v)
  {
    WriteOf(d, reg, v);
    ReadOf(WriteReg(d, reg, v).1, reg);
  }

  /** One error for a call that returned non-zero. */
  function Failed(rc: int): nat
  {
    if rc != 0 then 1 else 0
  }

  // ---------------------------------------------------------------- programming

  /** The byte a read-modify-write stores: the bits under `mask` from `val`, the others from the byte read. */
  function Merged(was: bv8, val: bv8, mask: bv8): (v: bv8)
    ensures v & mask == val & mask
    ensures v & !mask == was & !mask
  {
    (was & !mask) | (val & mask)
  }

  /**
   * The write an entry calls for: none under mask 0, a direct write under
   * mask 0xFF, a read-modify-write under any other mask.  The errors it
   * counts and the chip after it.
   */
  function Applied(e: Entry, d: Device): (int, Device)
  {
    if e.mask == 0 then (0, d)
    else if e.mask == 0xFF then
      var w := WriteReg(d, e.reg, e.val);
      (Failed(w.0), w.1)
    else
      var was := ReadReg(d, e.reg);
      var w := WriteReg(was.1, e.reg, Merged(Low(was.0), e.val, e.mask));
      (Failed(w.0), w.1)
  }

  /** One entry: its write, then a read-back that counts an error when it differs from the value under the mask. */
  function ProgramEntry(e: Entry, d: Device): (r: (int, Device))
    ensures 0 <= r.0 <= 2
  {
    var w := Applied(e, d);
    var back := ReadReg(w.1, e.reg);
    (w.0 + Mismatch(back.0, e), back.1)
  }

  /** The read-back check: 1 when the byte read differs from the entry's value under its mask, else 0. */
  function Mismatch(back: Reply, e: Entry): (n: int)
    ensures n == 0 || n == 1
  {
    if Low(back) & e.mask != e.val & e.mask then 1 else 0
  }

  /** The calls an entry makes under each kind of mask, and the errors it counts: none under mask 0. */
  lemma EntryOps(e: Entry, d: Device)
    ensures var r := ProgramEntry(e, d);
      && (e.mask == 0 ==> r.0 == 0 && r.1.ops == d.ops + [Get(e.reg)] && r.1.regs == d.regs)
      && (e.mask == 0xFF ==> r.1.ops == d.ops + [Put(e.reg, e.val), Get(e.reg)])
      && (e.mask != 0 && e.mask != 0xFF ==>
           r.1.ops == d.ops + [Get(e.reg), Put(e.reg, Merged(Low(ReadReg(d, e.reg).0), e.val, e.mask)), Get(e.reg)])
  {
    var w := Applied(e, d);
    ReadOf(w.1, e.reg);
    if e.mask == 0 {
      assert e.val & 0 == 0 && Low(ReadReg(w.1, e.reg).0) & 0 == 0;
    } else if e.mask == 0xFF {
      WriteOf(d, e.reg, e.val);
    } else {
      ReadOf(d, e.reg);
      WriteOf(ReadReg(d, e.reg).1, e.reg, Merged(Low(ReadReg(d, e.reg).0), e.val, e.mask));
    }
  }

  /**
   * On a chip whose transfers all succeed, the write an entry for any
   * register but the status register calls for counts no error, stores
   * the value merged under the mask into the register as it was (under
   * any mask, 0 and 0xFF included), and leaves every other register alone.
   */
  lemma SoundApplied(e: Entry, d: Device)
    requires Sound(d) && e.reg != SI5338_REG_STATUS
    ensures var w := Applied(e, d);
      w.0 == 0 && Sound(w.1) && w.1.status == d.status &&
      Stored(w.1.regs, e.reg) == Merged(Stored(d.regs, e.reg), e.val, e.mask) &&
      forall x :: x != e.reg ==> Stored(w.1.regs, x) == Stored(d.regs, x)
  {
    SoundStep(d);
    MergedEnds(Stored(d.regs, e.reg), e.val);
    if e.mask == 0xFF {
      WriteOf(d, e.reg, e.val);
    } else if e.mask != 0 {
      SoundMerge(d, e.reg, e.val, e.mask);
    }
  }

  /** Merging under mask 0 keeps the byte read; under mask 0xFF it is the value. */
  lemma MergedEnds(was: bv8, val: bv8)
    ensures Merged(was, val, 0) == was && Merged(was, val, 0xFF) == val
  {
  }

  /** A read-modify-write of a register other than the status register on a sound chip: the merged byte is stored and nothing else changes. */
  lemma SoundMerge(d: Device, reg: int, val: bv8, mask: bv8)
    requires Sound(d) && reg != SI5338_REG_STATUS
    ensures var was := ReadReg(d, reg);
      var w := WriteReg(was.1, reg, Merged(Low(was.0), val, mask));
      w.0 == 0 && Sound(w.1) && w.1.status == d.status &&
      Stored(w.1.regs, reg) == Merged(Stored(d.regs, reg), val, mask) &&
      forall x :: x != reg ==> Stored(w.1.regs, x) == Stored(d.regs, x)
  {
    SoundStep(d);
    ReadOf(d, reg);
    var was := ReadReg(d, reg);
    assert Low(was.0) == Stored(d.regs, reg);
    SoundStep(was.1);
    WriteOf(was.1, reg, Merged(Low(was.0), val, mask));
  }

  /**
   * On a chip whose transfers all succeed, an entry for any register but
   * the status register counts no error, leaves the register equal to the
   * value under the mask and the bits outside it as they were, and leaves
   * every other register alone.
   */
  lemma SoundEntry(e: Entry, d: Device)
    requires Sound(d) && e.reg != SI5338_REG_STATUS
    ensures var r := ProgramEntry(e, d);
      r.0 == 0 && Sound(r.1) && r.1.status == d.status &&
      Stored(r.1.regs, e.reg) & e.mask == e.val & e.mask &&
      Stored(r.1.regs, e.reg) & !e.mask == Stored(d.regs, e.reg) & !e.mask &&
      forall x :: x != e.reg ==> Stored(r.1.regs, x) == Stored(d.regs, x)
  {
    SoundApplied(e, d);
    var w := Applied(e, d).1;
    SoundStep(w);
    ReadOf(w, e.reg);
  }

  /**
   * The programming loop over the classified lines after the header, from
   * errors `errs`, `j` entries done and chip `d`: every entry is programmed
   * until a malformed line.  The errors, the entries done and the chip.
   */
  function ProgramFrom(cs: seq<Line>, errs: int, j: int, d: Device): (int, int, Device)
  {
    if |cs| == 0 then (errs, j, d)
    else match cs[0]
      case Other => ProgramFrom(cs[1..], errs, j, d)
      case Malformed => (errs, j, d)
      case Item(e) =>
        var r := ProgramEntry(e, d);
        ProgramFrom(cs[1..], errs + r.0, j + 1, r.1)
  }

  /** Programming the lines from the `m`-th on: that line is skipped, stops the loop, or is programmed before the rest. */
  lemma ProgramNext(cs: seq<Line>, m: nat, errs: int, j: int, d: Device)
    requires m < |cs|
    ensures var r := ProgramFrom(cs[m..], errs, j, d);
      match cs[m]
      case Other => r == ProgramFrom(cs[m + 1..], errs, j, d)
      case Malformed => r == (errs, j, d)
      case Item(e) => r == ProgramFrom(cs[m + 1..], errs + ProgramEntry(e, d).0, j + 1, ProgramEntry(e, d).1)
  {
    assert cs[m..][0] == cs[m] && cs[m..][1..] == cs[m + 1..];
  }

  /** The loop programs exactly the entries of the lines, and only adds errors. */
  lemma {:induction false} ProgramCounts(cs: seq<Line>, errs: int, j: int, d: Device)
    ensures var r := ProgramFrom(cs, errs, j, d); r.1 == j + |Items(cs)| && r.0 >= errs
  {
    if |cs| > 0 {
      match cs[0]
      case Other =>
        ProgramCounts(cs[1..], errs, j, d);
      case Malformed =>
      case Item(e) =>
        var r := ProgramEntry(e, d);
        ProgramCounts(cs[1..], errs + r.0, j + 1, r.1);
    }
  }

  /** No entry of `es` is for register `r`. */
  predicate Unlisted(es: seq<Entry>, r: int)
  {
    forall k :: 0 <= k < |es| ==> es[k].reg != r
  }

  /** Every register is listed at most once. */
  predicate Distinct(es: seq<Entry>)
  {
    forall i, k :: 0 <= i < k < |es| ==> es[i].reg != es[k].reg
  }

  /** Every entry's register holds its value under its mask. */
  predicate Programmed(regs: map<int, bv8>, es: seq<Entry>)
  {
    forall k :: 0 <= k < |es| ==> Stored(regs, es[k].reg) & es[k].mask == es[k].val & es[k].mask
  }

  /** Dropping the first entry keeps the registers distinct and unlisted, and the first one is not listed again. */
  lemma TailListed(es: seq<Entry>, x: int)
    requires |es| > 0 && Distinct(es) && Unlisted(es, x)
    ensures Distinct(es[1..]) && Unlisted(es[1..], x) && Unlisted(es[1..], es[0].reg) && es[0].reg != x
  {
    forall k | 0 <= k < |es[1..]| ensures es[1..][k].reg != es[0].reg {
      assert es[0].reg != es[k + 1].reg;
    }
  }

  /**
   * On a chip whose transfers all succeed, a file whose entries name
   * distinct registers other than the status register is programmed with
   * no error: each listed register holds its value under its mask and the
   * registers the file does not list are as they were.
   */
  lemma {:induction false} SoundProgram(cs: seq<Line>, errs: int, j: int, d: Device)
    requires Sound(d) && Distinct(Items(cs)) && Unlisted(Items(cs), SI5338_REG_STATUS)
    ensures var r := ProgramFrom(cs, errs, j, d);
      r.0 == errs && Sound(r.2) && r.2.status == d.status && Programmed(r.2.regs, Items(cs)) &&
      forall x :: Unlisted(Items(cs), x) ==> Stored(r.2.regs, x) == Stored(d.regs, x)
  {
    if |cs| > 0 {
      match cs[0]
      case Other =>
        SoundProgram(cs[1..], errs, j, d);
      case Malformed =>
      case Item(e) =>
        var es := Items(cs);
        var tail := Items(cs[1..]);
        assert es == [e] + tail;
        assert es[0] == e && es[1..] == tail;
        TailListed(es, SI5338_REG_STATUS);
        SoundEntry(e, d);
        var r1 := ProgramEntry(e, d);
        SoundProgram(cs[1..], errs + r1.0, j + 1, r1.1);
        var r := ProgramFrom(cs, errs, j, d);
        assert r == ProgramFrom(cs[1..], errs, j + 1, r1.1);
        forall k | 0 <= k < |es| ensures Stored(r.2.regs, es[k].reg) & es[k].mask == es[k].val & es[k].mask {
          if k > 0 {
            assert es[k] == tail[k - 1];
          }
        }
        forall x | Unlisted(es, x) ensures Stored(r.2.regs, x) == Stored(d.regs, x) {
          TailListed(es, x);
        }
    }
  }

  // ---------------------------------------------------------------- lock and calibrate

  /** The three writes before programming: all outputs disabled, loss-of-lock detection disabled, page 0. */
  function Prepared(d: Device): (int, Device)
  {
    var a := WriteReg(d, SI5338_REG_OUT, SI5338_OUT_DISABLE_ALL);
    var b := WriteReg(a.1, SI5338_REG_LOL, SI5338_LOL_DISABLE + SI5338_LOL_CONST);
    var c := WriteReg(b.1, SI5338_REG_PAGE, 0);
    (Failed(a.0) + Failed(b.0) + Failed(c.0), c.1)
  }

  /**
   * The writes Prepared makes, in order; each failed one is an error.  On a
   * sound chip none fails, and the outputs read disabled and loss-of-lock
   * detection off.
   */
  lemma PreparedOps(d: Device)
    ensures var r := Prepared(d);
      && 0 <= r.0 <= 3 && r.1.status == d.status
      && r.1.ops == d.ops + [Put(SI5338_REG_OUT, 0x1F), Put(SI5338_REG_LOL, 0xE5), Put(SI5338_REG_PAGE, 0)]
      && (forall x :: !Sequenced(x) ==> Stored(r.1.regs, x) == Stored(d.regs, x))
      && (Sound(d) ==> r.0 == 0 && Sound(r.1) && Stored(r.1.regs, SI5338_REG_OUT) == 0x1F && Stored(r.1.regs, SI5338_REG_LOL) == 0xE5)
  {
    var a := WriteReg(d, SI5338_REG_OUT, SI5338_OUT_DISABLE_ALL);
    var b := WriteReg(a.1, SI5338_REG_LOL, SI5338_LOL_DISABLE + SI5338_LOL_CONST);
    WriteOf(d, SI5338_REG_OUT, SI5338_OUT_DISABLE_ALL);
    WriteOf(a.1, SI5338_REG_LOL, SI5338_LOL_DISABLE + SI5338_LOL_CONST);
    WriteOf(b.1, SI5338_REG_PAGE, 0);
    if Sound(d) {
      SoundStep(d);
      SoundStep(a.1);
      SoundStep(b.1);
    }
  }

  /** Reads the status register at most `n` times until the bits of `mask` read clear: whether they did. */
  function PollStatus(d: Device, mask: bv8, n: nat): (r: (bool, Device))
    ensures r.1.regs == d.regs
    decreases n
  {
    if n == 0 then (false, d)
    else
      var (s, d') := ReadReg(d, SI5338_REG_STATUS);
      if Low(s) & mask == 0 then (true, d') else PollStatus(d', mask, n - 1)
  }

  /** A poll with reads left is one read of the status register, then the rest of the poll unless the bits read clear. */
  lemma PollOnce(d: Device, mask: bv8, n: nat)
    requires n > 0
    ensures var s := ReadReg(d, SI5338_REG_STATUS);
      PollStatus(d, mask, n) == if Low(s.0) & mask == 0 then (true, s.1) else PollStatus(s.1, mask, n - 1)
  {
  }

  /** One of the first `n` values the status register will show has the bits of `mask` clear. */
  predicate ClearWithin(st: seq<bv8>, mask: bv8, n: nat)
  {
    exists k :: 0 <= k < n && StatusAt(st, k) & mask == 0
  }

  /** The bits are clear within `n + 1` values when the first has them clear or they are clear within `n` of the rest. */
  lemma ClearWithinStep(st: seq<bv8>, mask: bv8, n: nat)
    ensures ClearWithin(st, mask, n + 1) <==> StatusAt(st, 0) & mask == 0 || ClearWithin(Rest(st), mask, n)
  {
    if ClearWithin(st, mask, n + 1) {
      ClearWithinSplit(st, mask, n);
    }
    ClearWithinJoin(st, mask, n);
  }

  /** A clear value among the first `n + 1` is the first one or among the next `n`. */
  lemma ClearWithinSplit(st: seq<bv8>, mask: bv8, n: nat)
    requires ClearWithin(st, mask, n + 1)
    ensures StatusAt(st, 0) & mask == 0 || ClearWithin(Rest(st), mask, n)
  {
    var k :| 0 <= k < n + 1 && StatusAt(st, k) & mask == 0;
    if k > 0 {
      assert StatusAt(Rest(st), k - 1) == StatusAt(st, k);
    }
  }

  /** A clear first value, or a clear value among the next `n`, is one among the first `n + 1`. */
  lemma ClearWithinJoin(st: seq<bv8>, mask: bv8, n: nat)
    ensures StatusAt(st, 0) & mask == 0 || ClearWithin(Rest(st), mask, n) ==> ClearWithin(st, mask, n + 1)
  {
    if ClearWithin(Rest(st), mask, n) {
      var k :| 0 <= k < n && StatusAt(Rest(st), k) & mask == 0;
      assert StatusAt(Rest(st), k) == StatusAt(st, k + 1);
    } else if StatusAt(st, 0) & mask == 0 {
      assert 0 <= 0 < n + 1;
    }
  }

  /** On a chip whose transfers succeed, the poll succeeds exactly when one of the next `n` status values has the bits of `mask` clear. */
  lemma {:induction false} SoundPoll(d: Device, mask: bv8, n: nat)
    requires Sound(d)
    ensures PollStatus(d, mask, n).0 <==> ClearWithin(d.status, mask, n)
    decreases n
  {
    if n > 0 {
      PollOnce(d, mask, n);
      SoundStep(d);
      ReadOf(d, SI5338_REG_STATUS);
      var d' := ReadReg(d, SI5338_REG_STATUS).1;
      ClearWithinStep(d.status, mask, n - 1);
      if StatusAt(d.status, 0) & mask != 0 {
        SoundPoll(d', mask, n - 1);
      }
    }
  }

  /** A sound chip keeps its registers and stays sound through a poll. */
  lemma {:induction false} PollKeeps(d: Device, mask: bv8, n: nat)
    requires Sound(d)
    ensures Sound(PollStatus(d, mask, n).1)
    decreases n
  {
    if n > 0 {
      PollOnce(d, mask, n);
      SoundStep(d);
      ReadOf(d, SI5338_REG_STATUS);
      PollKeeps(ReadReg(d, SI5338_REG_STATUS).1, mask, n - 1);
    }
  }

  /** The status bits the loader waits on after the soft reset: loss of lock, loss of the input clock, calibration in progress. */
  const LOCK_BITS: bv8 := SI5338_STATUS_LOL | SI5338_STATUS_CLKIN | SI5338_STATUS_SYSCAL

  /** The registers the lock-and-calibrate sequence writes after programming. */
  predicate Sequenced(x: int)
  {
    x in {SI5338_REG_PAGE, SI5338_REG_CTRL, SI5338_REG_SRESET, SI5338_REG_LOL,
          SI5338_REG_FCALOVRH, SI5338_REG_FCALOVRM, SI5338_REG_FCALOVRL, SI5338_REG_OUT}
  }

  /** Calibration override off, soft reset, loss-of-lock detection back on. */
  function Relocked(d: Device): (int, Device)
  {
    var c := ReadReg(d, SI5338_REG_CTRL);
    var a := WriteReg(c.1, SI5338_REG_CTRL, Low(c.0) & !SI5338_CTRL_FCALOVR);
    var b := WriteReg(a.1, SI5338_REG_SRESET, SI5338_SRESET_RESET);
    var e := WriteReg(b.1, SI5338_REG_LOL, SI5338_LOL_CONST);
    (Failed(a.0) + Failed(b.0) + Failed(e.0), e.1)
  }

  /**
   * Relocked counts a failed write as an error and writes only registers of
   * the sequence; on a sound chip nothing fails, the override bit reads
   * clear and loss-of-lock detection is back on.
   */
  lemma RelockedOf(d: Device)
    ensures var r := Relocked(d);
      && 0 <= r.0 <= 3 && r.1.status == d.status
      && (forall x :: !Sequenced(x) ==> Stored(r.1.regs, x) == Stored(d.regs, x))
      && (Sound(d) ==>
            r.0 == 0 && Sound(r.1) && Stored(r.1.regs, SI5338_REG_CTRL) & SI5338_CTRL_FCALOVR == 0 &&
            Stored(r.1.regs, SI5338_REG_LOL) == SI5338_LOL_CONST)
  {
    var c := ReadReg(d, SI5338_REG_CTRL);
    var a := WriteReg(c.1, SI5338_REG_CTRL, Low(c.0) & !SI5338_CTRL_FCALOVR);
    var b := WriteReg(a.1, SI5338_REG_SRESET, SI5338_SRESET_RESET);
    ReadOf(d, SI5338_REG_CTRL);
    WriteOf(c.1, SI5338_REG_CTRL, Low(c.0) & !SI5338_CTRL_FCALOVR);
    WriteOf(a.1, SI5338_REG_SRESET, SI5338_SRESET_RESET);
    WriteOf(b.1, SI5338_REG_LOL, SI5338_LOL_CONST);
    if Sound(d) {
      SoundStep(d);
      SoundStep(c.1);
      SoundStep(a.1);
      SoundStep(b.1);
      assert Low(c.0) & !SI5338_CTRL_FCALOVR & SI5338_CTRL_FCALOVR == 0;
    }
  }

  /** The calibration copied to the override registers. */
  function FcalCopied(d: Device): (int, Device)
  {
    var h := ReadReg(d, SI5338_REG_FCALH);
    var a := WriteReg(h.1, SI5338_REG_FCALOVRH, (Low(h.0) & 3) + SI5338_FCALOVRH_CONST);
    var m := ReadReg(a.1, SI5338_REG_FCALM);
    var b := WriteReg(m.1, SI5338_REG_FCALOVRM, Low(m.0));
    var l := ReadReg(b.1, SI5338_REG_FCALL);
    var c := WriteReg(l.1, SI5338_REG_FCALOVRL, Low(l.0));
    (Failed(a.0) + Failed(b.0) + Failed(c.0), c.1)
  }

  /**
   * FcalCopied counts a failed write as an error and writes only registers
   * of the sequence; on a sound chip nothing fails and the override
   * registers hold the calibration results (the high one with its two low
   * bits and 0x14).
   */
  lemma FcalCopiedOf(d: Device)
    ensures var r := FcalCopied(d);
      && 0 <= r.0 <= 3 && r.1.status == d.status
      && (forall x :: !Sequenced(x) ==> Stored(r.1.regs, x) == Stored(d.regs, x))
      && (Sound(d) ==>
            r.0 == 0 && Sound(r.1) &&
            Stored(r.1.regs, SI5338_REG_FCALOVRH) == (Stored(d.regs, SI5338_REG_FCALH) & 3) + SI5338_FCALOVRH_CONST &&
            Stored(r.1.regs, SI5338_REG_FCALOVRM) == Stored(d.regs, SI5338_REG_FCALM) &&
            Stored(r.1.regs, SI5338_REG_FCALOVRL) == Stored(d.regs, SI5338_REG_FCALL))
  {
    var h := ReadReg(d, SI5338_REG_FCALH);
    var a := WriteReg(h.1, SI5338_REG_FCALOVRH, (Low(h.0) & 3) + SI5338_FCALOVRH_CONST);
    var m := ReadReg(a.1, SI5338_REG_FCALM);
    var b := WriteReg(m.1, SI5338_REG_FCALOVRM, Low(m.0));
    var l := ReadReg(b.1, SI5338_REG_FCALL);
    ReadOf(d, SI5338_REG_FCALH);
    WriteOf(h.1, SI5338_REG_FCALOVRH, (Low(h.0) & 3) + SI5338_FCALOVRH_CONST);
    ReadOf(a.1, SI5338_REG_FCALM);
    WriteOf(m.1, SI5338_REG_FCALOVRM, Low(m.0));
    ReadOf(b.1, SI5338_REG_FCALL);
    WriteOf(l.1, SI5338_REG_FCALOVRL, Low(l.0));
    if Sound(d) {
      SoundStep(d);
      SoundStep(h.1);
      SoundStep(a.1);
      SoundStep(m.1);
      SoundStep(b.1);
      SoundStep(l.1);
    }
  }

  /** The override turned on, the outputs enabled. */
  function Overridden(d: Device): (int, Device)
  {
    var t := ReadReg(d, SI5338_REG_CTRL);
    var e := WriteReg(t.1, SI5338_REG_CTRL, Low(t.0) | SI5338_CTRL_FCALOVR);
    var f := WriteReg(e.1, SI5338_REG_OUT, 0);
    (Failed(e.0) + Failed(f.0), f.1)
  }

  /**
   * Overridden counts a failed write as an error and writes only registers
   * of the sequence; on a sound chip nothing fails, the override bit reads
   * set and the outputs read enabled.
   */
  lemma OverriddenOf(d: Device)
    ensures var r := Overridden(d);
      && 0 <= r.0 <= 2 && r.1.status == d.status
      && (forall x :: !Sequenced(x) ==> Stored(r.1.regs, x) == Stored(d.regs, x))
      && (Sound(d) ==>
            r.0 == 0 && Sound(r.1) &&
            Stored(r.1.regs, SI5338_REG_CTRL) & SI5338_CTRL_FCALOVR == SI5338_CTRL_FCALOVR &&
            Stored(r.1.regs, SI5338_REG_OUT) == 0)
  {
    var t := ReadReg(d, SI5338_REG_CTRL);
    var e := WriteReg(t.1, SI5338_REG_CTRL, Low(t.0) | SI5338_CTRL_FCALOVR);
    ReadOf(d, SI5338_REG_CTRL);
    WriteOf(t.1, SI5338_REG_CTRL, Low(t.0) | SI5338_CTRL_FCALOVR);
    WriteOf(e.1, SI5338_REG_OUT, 0);
    if Sound(d) {
      SoundStep(d);
      SoundStep(t.1);
      SoundStep(e.1);
      assert (Low(t.0) | SI5338_CTRL_FCALOVR) & SI5338_CTRL_FCALOVR == SI5338_CTRL_FCALOVR;
    }
  }

  /** The calibration copied to the override registers, the override turned on, the outputs enabled. */
  function Calibrated(d: Device): (int, Device)
  {
    var a := FcalCopied(d);
    var b := Overridden(a.1);
    (a.0 + b.0, b.1)
  }

  /**
   * ConfigureSlaveClock on `file` (None when it cannot be opened): the code
   * it returns and the chip after it.  -10: no file; -20: the announced
   * count is not in 1..511; -30: the file lists a different number of
   * entries; -40: the input clock is not seen; -50: the PLL does not lock;
   * otherwise the number of failed transfers and read-back mismatches.
   */
  function Load(file: Option<seq<string>>, d: Device): (r: (int, Device))
    ensures r.0 == -10 <==> file.None?
    ensures r.0 == -20 <==> file.Some? && !(1 <= HeaderCount(file.value) <= 511)
    ensures r.0 == -20 || r.0 == -10 ==> r.1 == d
    ensures file.Some? && 1 <= HeaderCount(file.value) <= 511 ==>
              (r.0 == -30 <==> |Entries(Body(file.value))| != HeaderCount(file.value))
    ensures r.0 >= 0 || r.0 in {-10, -20, -30, -40, -50}
  {
    if file.None? then (-10, d)
    else
      var lines := file.value;
      var n := HeaderCount(lines);
      if n <= 0 || n > 511 then (-20, d)
      else
        var p := Prepared(d);
        var cs := Classified(Body(lines));
        var q := ProgramFrom(cs, p.0, 0, p.1);
        if q.1 != n then
          ProgramCounts(cs, p.0, 0, p.1);
          (-30, q.2)
        else
          PreparedOps(d);
          ProgramCounts(cs, p.0, 0, p.1);
          Finished(q.0, Closed(q.2))
  }

  /** The closing sequence after programming with `errs` errors: its failure code, or all the errors counted. */
  function Finished(errs: int, z: (int, Device)): (r: (int, Device))
    requires errs >= 0 && (z.0 >= 0 || z.0 == -40 || z.0 == -50)
    ensures r.0 >= 0 || r.0 == -40 || r.0 == -50
  {
    if z.0 < 0 then z else (errs + z.0, z.1)
  }

  /**
   * What follows the programming: page 0 again, the wait for the input
   * clock (-40 when it is not seen), then the relock and calibration;
   * otherwise the errors counted on the way.
   */
  function Closed(d: Device): (r: (int, Device))
    ensures r.0 >= 0 || r.0 == -40 || r.0 == -50
  {
    var w := WriteReg(d, SI5338_REG_PAGE, 0);
    var t := Clocked(w.1);
    if t.0 < 0 then t else (Failed(w.0) + t.0, t.1)
  }

  /** The closing sequence as the page write followed by the rest. */
  lemma ClosedSteps(d: Device)
    ensures var w := WriteReg(d, SI5338_REG_PAGE, 0); var t := Clocked(w.1);
      Closed(d).0 == (if t.0 < 0 then t.0 else Failed(w.0) + t.0) && Closed(d).1 == t.1
  {
  }

  /** The wait for the input clock (-40 when it is not seen), then the relock and calibration. */
  function Clocked(d: Device): (r: (int, Device))
    ensures r.0 >= 0 || r.0 == -40 || r.0 == -50
  {
    var c := PollStatus(d, SI5338_STATUS_CLKIN, SI5338_TIMEOUT);
    if !c.0 then (-40, c.1) else Tuned(c.1)
  }

  /** The relock, the wait for the lock (-50 when it does not come), the calibration, and the errors counted on the way. */
  function Tuned(d: Device): (r: (int, Device))
    ensures r.0 >= 0 || r.0 == -50
  {
    var l := Relocked(d);
    var k := PollStatus(l.1, LOCK_BITS, SI5338_TIMEOUT);
    if !k.0 then (-50, k.1)
    else
      var f := Calibrated(k.1);
      RelockedOf(d);
      FcalCopiedOf(k.1);
      OverriddenOf(FcalCopied(k.1).1);
      (l.0 + f.0, f.1)
  }

  /**
   * A file ClockBuilder writes for distinct registers other than the
   * status register, loaded into a chip whose transfers all succeed and
   * whose status is clear, returns 0 and leaves the outputs enabled; every
   * listed register the closing sequence does not write holds its value
   * under its mask.
   */
  lemma SoundLoad(es: seq<Entry>, d: Device)
    requires 1 <= |es| <= 511 && forall k :: 0 <= k < |es| ==> 0 <= es[k].reg <= 511
    requires Distinct(es) && Unlisted(es, SI5338_REG_STATUS)
    requires Sound(d) && d.status == []
    ensures var r := Load(Some(File(es)), d);
      && r.0 == 0 && Stored(r.1.regs, SI5338_REG_OUT) == 0
      && forall k :: 0 <= k < |es| && !Sequenced(es[k].reg) ==>
           Stored(r.1.regs, es[k].reg) & es[k].mask == es[k].val & es[k].mask
  {
    var lines := File(es);
    FileRoundTrip(es);
    PreparedOps(d);
    var p := Prepared(d);
    var cs := Classified(Body(lines));
    SoundProgram(cs, p.0, 0, p.1);
    ProgramCounts(cs, p.0, 0, p.1);
    var q := ProgramFrom(cs, p.0, 0, p.1);
    assert Items(cs) == es;
    assert Load(Some(lines), d) == Finished(q.0, Closed(q.2));
    SoundClose(q.2);
  }

  /** On a sound chip whose status reads clear, the closing sequence counts no error, enables the outputs and writes only its own registers. */
  lemma SoundClose(d: Device)
    requires Sound(d) && d.status == []
    ensures var r := Closed(d);
      && r.0 == 0 && Stored(r.1.regs, SI5338_REG_OUT) == 0
      && forall x :: !Sequenced(x) ==> Stored(r.1.regs, x) == Stored(d.regs, x)
  {
    SoundStep(d);
    WriteOf(d, SI5338_REG_PAGE, 0);
    var w := WriteReg(d, SI5338_REG_PAGE, 0);
    var c := SoundWait(w.1, SI5338_STATUS_CLKIN);
    RelockedOf(c);
    var l := Relocked(c);
    var k := SoundWait(l.1, LOCK_BITS);
    FcalCopiedOf(k);
    OverriddenOf(FcalCopied(k).1);
  }

  /**
   * On a sound chip whose status reads clear, a poll succeeds at once and
   * keeps the chip sound, its status clear and its registers: the chip it
   * leaves.
   */
  lemma SoundWait(d: Device, mask: bv8) returns (d': Device)
    requires Sound(d) && d.status == []
    ensures PollStatus(d, mask, SI5338_TIMEOUT) == (true, d')
    ensures Sound(d') && d'.status == [] && d'.regs == d.regs
  {
    PollOnce(d, mask, SI5338_TIMEOUT);
    SoundStep(d);
    ReadOf(d, SI5338_REG_STATUS);
    d' := ReadReg(d, SI5338_REG_STATUS).1;
  }

  // ---------------------------------------------------------------- the loader

  /** The Si5338 behind one slave Xilinx, reached by L2CRead and L2CWrite. */
  class SlaveClock {
    var dev: Device

    constructor (d: Device)
      ensures dev == d
    {
      dev := d;
    }

    /** L2CRead: the register's byte, or -10 (Nak). */
    method L2CRead(addr: int) returns (rc: Reply)
      modifies this
      ensures (rc, dev) == ReadReg(old(dev), addr)
    {
      var r := ReadReg(dev, addr);
      rc, dev := r.0, r.1;
    }

    /** L2CWrite: 0, or -10 when the transfer fails. */
    method L2CWrite(addr: int, val: bv8) returns (rc: int)
      modifies this
      ensures (rc, dev) == WriteReg(old(dev), addr, val)
    {
      var r := WriteReg(dev, addr, val);
      rc, dev := r.0, r.1;
    }
  }

  /** The scan for the '#' line: the count it announces and the index of the line after it. */
  method ScanHeader(lines: seq<string>) returns (nRegs: int, next: nat)
    ensures nRegs == HeaderCount(lines)
    ensures next <= |lines| && lines[next..] == Body(lines)
  {
    nRegs := -1;
    var i := 0;
    while i < |lines|
      invariant 0 <= i <= |lines|
      invariant forall k :: 0 <= k < i ==> !StartsWith(lines[k], '#')
    {
      if StartsWith(lines[i], '#') {
        nRegs := CountOn(lines[i]);
        return nRegs, i + 1;
      }
      i := i + 1;
    }
    next := i;
  }

  /** The write an entry's mask calls for. */
  method ApplyOne(clk: SlaveClock, e: Entry) returns (wrong: int)
    modifies clk
    ensures (wrong, clk.dev) == Applied(e, old(clk.dev))
  {
    wrong := 0;
    if e.mask == 0 {
    } else if e.mask == 0xFF {
      var rc := clk.L2CWrite(e.reg, e.val);
      wrong := Failed(rc);
    } else {
      var was := clk.L2CRead(e.reg);
      var rc := clk.L2CWrite(e.reg, Merged(Low(was), e.val, e.mask));
      wrong := Failed(rc);
    }
  }

  /** One entry: the write its mask calls for, then the read-back. */
  method ProgramOne(clk: SlaveClock, e: Entry) returns (wrong: int)
    modifies clk
    ensures (wrong, clk.dev) == ProgramEntry(e, old(clk.dev))
  {
    wrong := ApplyOne(clk, e);
    var back := clk.L2CRead(e.reg);
    wrong := wrong + Mismatch(back, e);
  }

  /** The programming loop over the classified lines, starting with `errs` errors. */
  method ProgramLines(clk: SlaveClock, cs: seq<Line>, errs: int) returns (errcnt: int, j: int)
    modifies clk
    ensures (errcnt, j, clk.dev) == ProgramFrom(cs, errs, 0, old(clk.dev))
  {
    errcnt, j := errs, 0;
    var k := 0;
    while k < |cs|
      invariant 0 <= k <= |cs|
      invariant ProgramFrom(cs[k..], errcnt, j, clk.dev) == ProgramFrom(cs, errs, 0, old(clk.dev))
    {
      ProgramNext(cs, k, errcnt, j, clk.dev);
      match cs[k] {
        case Other =>
        case Malformed =>
          break;
        case Item(e) =>
          var wrong := ProgramOne(clk, e);
          errcnt, j := errcnt + wrong, j + 1;
      }
      k := k + 1;
    }
  }

  /** The status poll: at most `tries` reads (SI5338_TIMEOUT in the loader) until the bits of `mask` read clear. */
  method WaitStatus(clk: SlaveClock, mask: bv8, tries: nat) returns (ok: bool)
    modifies clk
    ensures (ok, clk.dev) == PollStatus(old(clk.dev), mask, tries)
  {
    var i := 0;
    while i < tries
      invariant 0 <= i <= tries
      invariant PollStatus(clk.dev, mask, tries - i) == PollStatus(old(clk.dev), mask, tries)
    {
      PollOnce(clk.dev, mask, tries - i);
      var s := clk.L2CRead(SI5338_REG_STATUS);
      if Low(s) & mask == 0 {
        return true;
      }
      i := i + 1;
    }
    ok := false;
  }

  /** The three writes before programming; each call that returns non-zero counts one error. */
  method Prepare(clk: SlaveClock) returns (errcnt: int)
    modifies clk
    ensures (errcnt, clk.dev) == Prepared(old(clk.dev))
  {
    var rc := clk.L2CWrite(SI5338_REG_OUT, SI5338_OUT_DISABLE_ALL);
    errcnt := Failed(rc);
    rc := clk.L2CWrite(SI5338_REG_LOL, SI5338_LOL_DISABLE + SI5338_LOL_CONST);
    errcnt := errcnt + Failed(rc);
    rc := clk.L2CWrite(SI5338_REG_PAGE, 0);
    errcnt := errcnt + Failed(rc);
  }

  /** Calibration override off, soft reset, loss-of-lock detection back on. */
  method Relock(clk: SlaveClock) returns (errcnt: int)
    modifies clk
    ensures (errcnt, clk.dev) == Relocked(old(clk.dev))
  {
    var c := clk.L2CRead(SI5338_REG_CTRL);
    var rc := clk.L2CWrite(SI5338_REG_CTRL, Low(c) & !SI5338_CTRL_FCALOVR);
    errcnt := Failed(rc);
    rc := clk.L2CWrite(SI5338_REG_SRESET, SI5338_SRESET_RESET);
    errcnt := errcnt + Failed(rc);
    rc := clk.L2CWrite(SI5338_REG_LOL, SI5338_LOL_CONST);
    errcnt := errcnt + Failed(rc);
  }

  /** The calibration copied to the override registers. */
  method CopyFcal(clk: SlaveClock) returns (errcnt: int)
    modifies clk
    ensures (errcnt, clk.dev) == FcalCopied(old(clk.dev))
  {
    var h := clk.L2CRead(SI5338_REG_FCALH);
    var rc := clk.L2CWrite(SI5338_REG_FCALOVRH, (Low(h) & 3) + SI5338_FCALOVRH_CONST);
    errcnt := Failed(rc);
    var m := clk.L2CRead(SI5338_REG_FCALM);
    rc := clk.L2CWrite(SI5338_REG_FCALOVRM, Low(m));
    errcnt := errcnt + Failed(rc);
    var l := clk.L2CRead(SI5338_REG_FCALL);
    rc := clk.L2CWrite(SI5338_REG_FCALOVRL, Low(l));
    errcnt := errcnt + Failed(rc);
  }

  /** The override on, the outputs enabled. */
  method Override(clk: SlaveClock) returns (errcnt: int)
    modifies clk
    ensures (errcnt, clk.dev) == Overridden(old(clk.dev))
  {
    var t := clk.L2CRead(SI5338_REG_CTRL);
    var rc := clk.L2CWrite(SI5338_REG_CTRL, Low(t) | SI5338_CTRL_FCALOVR);
    errcnt := Failed(rc);
    rc := clk.L2CWrite(SI5338_REG_OUT, 0);
    errcnt := errcnt + Failed(rc);
  }

  /** The calibration copy, the override on, the outputs enabled. */
  method Calibrate(clk: SlaveClock) returns (errcnt: int)
    modifies clk
    ensures (errcnt, clk.dev) == Calibrated(old(clk.dev))
  {
    errcnt := CopyFcal(clk);
    var e := Override(clk);
    errcnt := errcnt + e;
  }

  /** ConfigureSlaveClock: loads `file` into the chip; see Load for the codes. */
  method ConfigureSlaveClock(clk: SlaveClock, file: Option<seq<string>>) returns (rc: int)
    modifies clk
    ensures (rc, clk.dev) == Load(file, old(clk.dev))
  {
    if file.None? {
      return -10;
    }
    var lines := file.value;
    var nRegs, next := ScanHeader(lines);
    if nRegs <= 0 || nRegs > 511 {
      return -20;
    }
    ghost var d0 := clk.dev;
    var errcnt := Prepare(clk);
    ghost var p := Prepared(d0);
    var cs := Classified(lines[next..]);
    var j;
    errcnt, j := ProgramLines(clk, cs, errcnt);
    if j != nRegs {
      return -30;
    }
    PreparedOps(d0);
    ProgramCounts(cs, p.0, 0, p.1);
    rc := Finish(clk, errcnt);
  }

  /** The closing sequence; on success the programming errors are added to its own. */
  method Finish(clk: SlaveClock, errs: int) returns (rc: int)
    requires errs >= 0
    modifies clk
    ensures (rc, clk.dev) == Finished(errs, Closed(old(clk.dev)))
  {
    rc := Close(clk);
    if rc >= 0 {
      rc := errs + rc;
    }
  }

  /** Page 0, the wait for the input clock, the relock, the wait for the lock, the calibration. */
  method Close(clk: SlaveClock) returns (rc: int)
    modifies clk
    ensures rc == Closed(old(clk.dev)).0 && clk.dev == Closed(old(clk.dev)).1
  {
    ClosedSteps(clk.dev);
    var w := clk.L2CWrite(SI5338_REG_PAGE, 0);
    rc := WaitAndTune(clk);
    if rc >= 0 {
      rc := Failed(w) + rc;
    }
  }

  /** The wait for the input clock, then the relock and calibration. */
  method WaitAndTune(clk: SlaveClock) returns (rc: int)
    modifies clk
    ensures (rc, clk.dev) == Clocked(old(clk.dev))
  {
    var ok := WaitStatus(clk, SI5338_STATUS_CLKIN, SI5338_TIMEOUT);
    if !ok {
      return -40;
    }
    rc := Tune(clk);
  }

  /** The relock, the wait for the lock, the calibration. */
  method Tune(clk: SlaveClock) returns (rc: int)
    modifies clk
    ensures (rc, clk.dev) == Tuned(old(clk.dev))
  {
    var errcnt := Relock(clk);
    var ok := WaitStatus(clk, LOCK_BITS, SI5338_TIMEOUT);
    if !ok {
      return -50;
    }
    var e := Calibrate(clk);
    rc := errcnt + e;
  }
}
