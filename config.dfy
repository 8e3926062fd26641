/*
 * The module configuration (uwfd64_module_config) and how ReadConfig fills
 * it from a libconfig file: first from section "Def", then from the section
 * of the module's own serial number, "DevNNN", so that a device setting
 * overrides the default one.  Every integer setting is cut to the width of
 * its field before it is stored.
 */
module Config {
  import opened RegMap

  // ---------------------------------------------------------------- the configuration file

  /** A setting of a libconfig file: an integer, a string, or a list of settings. */
  datatype Setting = Int(n: int) | Str(s: string) | List(items: seq<Setting>)

  /** A parsed configuration file: the setting at each path "Section.Name". */
  type ConfigFile = map<string, Setting>

  /** The path of setting `name` in section `sect`. */
  function Key(sect: string, name: string): string
  {
    sect + "." + name
  }

  /** Element `j` of a list setting read as an integer; 0 when it is missing or not an integer. */
  function Elem(s: Setting, j: nat): int
  {
    if s.List? && j < |s.items| && s.items[j].Int? then s.items[j].n else 0
  }

  // ---------------------------------------------------------------- section names

  /** The decimal digits of `n`, most significant first, without leading zeros ("0" for zero). */
  function Digits(n: nat): (s: string)
    ensures 1 <= |s|
  {
    if n < 10 then [(48 + n) as char] else Digits(n / 10) + [(48 + n % 10) as char]
  }

  /** The digits of `n`, with zeros in front up to at least `w` characters (printf "%w.wd"). */
  function Padded(n: nat, w: nat): string
  {
    var d := Digits(n);
    if |d| >= w then d else seq(w - |d|, _ => '0') + d
  }

  /** The number a string of decimal digits spells. */
  function Value(s: string): int
  {
    if s == [] then 0 else 10 * Value(s[..|s| - 1]) + (s[|s| - 1] as int - 48)
  }

  /** Reading back the digits of a number gives the number. */
  lemma {:induction false} ValueOfDigits(n: nat)
    ensures Value(Digits(n)) == n
    decreases n
  {
    if n >= 10 {
      var d := Digits(n / 10);
      ValueOfDigits(n / 10);
      assert (d + [(48 + n % 10) as char])[..|d|] == d;
    }
  }

  /** Leading zeros do not change the number a string of digits spells. */
  lemma {:induction false} ValueOfZeros(k: nat, s: string)
    ensures Value(seq(k, _ => '0') + s) == Value(s)
    decreases |s|, k
  {
    var z: string := seq(k, _ => '0');
    if s == [] {
      assert z + s == z;
      if k > 0 {
        assert z[..k - 1] == seq(k - 1, _ => '0');
        ValueOfZeros(k - 1, []);
        assert seq(k - 1, _ => '0') + [] == seq(k - 1, _ => '0');
      }
    } else {
      assert (z + s)[..|z + s| - 1] == z + s[..|s| - 1];
      ValueOfZeros(k, s[..|s| - 1]);
    }
  }

  /** The section ReadConfig reads after "Def": "Dev" and the serial number in at least three digits (printf "Dev%3.3d"). */
  function DevSection(serial: int): (s: string)
    ensures |s| >= 6 && s[..3] == "Dev"
  {
    if serial < 0 then "Dev-" + Padded(-serial, 3) else "Dev" + Padded(serial, 3)
  }

  /**
   * A module's own section spells its serial number, so two modules never
   * read each other's section and none reads "Def" twice; serial numbers
   * below 1000 give six-character names.
   */
  lemma DevSectionNames(serial: nat)
    ensures Value(DevSection(serial)[3..]) == serial
    ensures serial < 1000 ==> |DevSection(serial)| == 6
    ensures DevSection(serial) != "Def"
  {
    var d := Digits(serial);
    ValueOfDigits(serial);
    assert DevSection(serial)[3..] == Padded(serial, 3);
    if |d| < 3 {
      ValueOfZeros(3 - |d|, d);
    }
    if serial < 1000 {
      if serial >= 100 {
        assert |Digits(serial / 10)| == |Digits(serial / 100)| + 1;
      } else if serial >= 10 {
        assert |Digits(serial)| == 2;
      }
    }
    assert DevSection(serial)[2] == 'v';
  }

  // ---------------------------------------------------------------- the configuration

  datatype Conf = Conf(
    masterClockMux: int, masterTrigMux: int, masterInhMux: int, masterClockDiv: int, masterClockErc: int,
    auxTrigOut: int, auxTrigIn: int, masterTrig2Fifo: int, tokenSync: int, dac: int,
    trigGenMask: int, trigOrTime: int, trigBlkTime: int, trigUserWord: int,
    fifoBegin: int, fifoEnd: int, ioDelay: int, trigHistMask: int,
    zeroSupThreshold: int, selfTrigThreshold: int, masterTrigThreshold: int, selfTriggerPrescale: int,
    winLen: int, trigWinBegin: int, selfWinBegin: int, sumWinBegin: int, sumDelay: int,
    zsWinBegin: int, zsWinEnd: int,
    /** The trigger coefficients, as the 16-bit words 0x8000 * coefficient the slave Xilinxes take. */
    trigCoef: seq<int>,
    mainTrigMask: seq<int>, selfTrigMask: seq<int>, trigSumMask: seq<int>, invertMask: seq<int>,
    slaveClockFile: string)

  /** The configuration a new module object starts with: all zero, and a FIFO of one 8 KiB block. */
  function Initial(): Conf
  {
    Conf(0, 0, 0, 0, 0, 0, 0, 0, 0, 0, 0, 0, 0, 0, 0, 1, 0, 0, 0, 0, 0, 0, 0, 0, 0, 0, 0, 0, 0,
         seq(64, _ => 0), seq(4, _ => 0), seq(4, _ => 0), seq(4, _ => 0), seq(4, _ => 0), "")
  }

  /** C `%` (truncating toward zero). */
  function CRem(a: int, d: int): (r: int)
    requires d > 0
    ensures -d < r < d && (a >= 0 ==> r >= 0) && (a < 0 ==> r <= 0)
  {
    if a >= 0 then a % d else -((-a) % d)
  }

  /** Truncation to a C `short`. */
  function Short(x: int): (s: int)
    ensures -0x8000 <= s < 0x8000 && (x - s) % 0x1_0000 == 0
  {
    if x % 0x1_0000 < 0x8000 then x % 0x1_0000 else x % 0x1_0000 - 0x1_0000
  }

  /** How ReadConfig cuts an integer setting before it stores it. */
  datatype Cut = Keep | Mask(m: nat) | Rem(d: nat) | Flag

  function Apply(k: Cut, v: int): (r: int)
    ensures k.Mask? ==> 0 <= r <= k.m
    ensures k.Rem? && k.d > 0 ==> -(k.d as int) < r < k.d
    ensures k.Flag? ==> r in {0, 1}
  {
    match k
    case Keep => v
    case Mask(m) => And(v, m)
    case Rem(d) => if d == 0 then v else CRem(v, d)
    case Flag => if v != 0 then 1 else 0
  }

  /** The integer setting `name` of section `sect`, cut by `k`, or `cur` when the file has no integer there. */
  function IntSetting(cnf: ConfigFile, sect: string, name: string, cur: int, k: Cut): (r: int)
    ensures var key := Key(sect, name);
            if key in cnf && cnf[key].Int? then r == Apply(k, cnf[key].n) else r == cur
  {
    var key := Key(sect, name);
    if key in cnf && cnf[key].Int? then Apply(k, cnf[key].n) else cur
  }

  /** The first `n` elements of the list setting `name` of `sect`, each passed through `short` when `narrow`, or `cur` when the file has no setting there. */
  function ListSetting(cnf: ConfigFile, sect: string, name: string, cur: seq<int>, n: nat, narrow: bool): (r: seq<int>)
    ensures Key(sect, name) in cnf ==> |r| == n
    ensures Key(sect, name) !in cnf ==> r == cur
  {
    var key := Key(sect, name);
    if key in cnf then seq(n, j requires 0 <= j < n => if narrow then Short(Elem(cnf[key], j)) else Elem(cnf[key], j))
    else cur
  }

  /** The string setting `name` of `sect`, or `cur`. */
  function StrSetting(cnf: ConfigFile, sect: string, name: string, cur: string): string
  {
    var key := Key(sect, name);
    if key in cnf && cnf[key].Str? then cnf[key].s else cur
  }

  /** Every field holds what the cut of ReadConfig lets through, and every list has its length. */
  predicate InRange(c: Conf)
  {
    0 <= c.masterClockMux < 8 && 0 <= c.masterTrigMux < 8 && 0 <= c.masterInhMux < 8 &&
    0 <= c.masterClockDiv < 4 && -3 < c.masterClockErc < 3 &&
    c.auxTrigOut in {0, 1} && c.auxTrigIn in {0, 1} && c.masterTrig2Fifo in {0, 1} && c.tokenSync in {0, 1} &&
    0 <= c.dac <= 0xFFFF && 0 <= c.fifoBegin <= 0xFFFF && 0 <= c.fifoEnd <= 0xFFFF &&
    0 <= c.ioDelay < 64 && 0 <= c.trigHistMask < 16 &&
    0 <= c.zeroSupThreshold <= 0xFFF && 0 <= c.selfTrigThreshold <= 0xFFF &&
    0 <= c.masterTrigThreshold <= 0xFFFF && 0 <= c.selfTriggerPrescale <= 0xFFFF &&
    0 <= c.winLen <= 0x1FF && 0 <= c.trigWinBegin <= 0x3FF && 0 <= c.selfWinBegin <= 0x3FF &&
    0 <= c.sumWinBegin <= 0x3FF && 0 <= c.sumDelay <= 0x1F && 0 <= c.zsWinBegin <= 0x1FF && 0 <= c.zsWinEnd <= 0x1FF &&
    |c.trigCoef| == 64 && |c.mainTrigMask| == 4 && |c.selfTrigMask| == 4 && |c.trigSumMask| == 4 && |c.invertMask| == 4
  }

  /**
   * One pass of ReadConfig over section `sect`: each field the section sets
   * is replaced by the setting, cut to the field's width; every other field
   * keeps its value.  A configuration in range stays in range.
   */
  function ReadSection(c: Conf, cnf: ConfigFile, sect: string): (r: Conf)
    ensures InRange(c) ==> InRange(r)
  {
    c.(
      masterClockMux := IntSetting(cnf, sect, "MasterClockMux", c.masterClockMux, Mask(7)),
      masterTrigMux := IntSetting(cnf, sect, "MasterTrigMux", c.masterTrigMux, Mask(7)),
      masterInhMux := IntSetting(cnf, sect, "MasterInhMux", c.masterInhMux, Mask(7)),
      masterClockDiv := IntSetting(cnf, sect, "MasterClockDiv", c.masterClockDiv, Mask(3)),
      masterClockErc := IntSetting(cnf, sect, "MasterClockErc", c.masterClockErc, Rem(3)),
      auxTrigOut := IntSetting(cnf, sect, "AuxTrigOut", c.auxTrigOut, Flag),
      auxTrigIn := IntSetting(cnf, sect, "AuxTrigIn", c.auxTrigIn, Flag),
      masterTrig2Fifo := IntSetting(cnf, sect, "MasterTrig2FIFO", c.masterTrig2Fifo, Flag),
      tokenSync := IntSetting(cnf, sect, "TokenSync", c.tokenSync, Flag),
      dac := IntSetting(cnf, sect, "DAC", c.dac, Mask(0xFFFF)),
      trigGenMask := IntSetting(cnf, sect, "TrigGenMask", c.trigGenMask, Keep),
      trigOrTime := IntSetting(cnf, sect, "TrigOrTime", c.trigOrTime, Keep),
      trigBlkTime := IntSetting(cnf, sect, "TrigBlkTime", c.trigBlkTime, Keep),
      trigUserWord := IntSetting(cnf, sect, "TrigUserWord", c.trigUserWord, Keep),
      fifoBegin := IntSetting(cnf, sect, "FifoBegin", c.fifoBegin, Mask(0xFFFF)),
      fifoEnd := IntSetting(cnf, sect, "FifoEnd", c.fifoEnd, Mask(0xFFFF)),
      ioDelay := IntSetting(cnf, sect, "IODelay", c.ioDelay, Mask(0x3F)),
      slaveClockFile := StrSetting(cnf, sect, "SlaveClockFile", c.slaveClockFile),
      trigHistMask := IntSetting(cnf, sect, "TrigHistMask", c.trigHistMask, Mask(0xF)),
      zeroSupThreshold := IntSetting(cnf, sect, "ZeroSupThreshold", c.zeroSupThreshold, Mask(0xFFF)),
      selfTrigThreshold := IntSetting(cnf, sect, "SelfTrigThreshold", c.selfTrigThreshold, Mask(0xFFF)),
      masterTrigThreshold := IntSetting(cnf, sect, "MasterTrigThreshold", c.masterTrigThreshold, Mask(0xFFFF)),
      selfTriggerPrescale := IntSetting(cnf, sect, "SelfTriggerPrescale", c.selfTriggerPrescale, Mask(0xFFFF)),
      winLen := IntSetting(cnf, sect, "WinLen", c.winLen, Mask(0x1FF)),
      trigWinBegin := IntSetting(cnf, sect, "TrigWinBegin", c.trigWinBegin, Mask(0x3FF)),
      selfWinBegin := IntSetting(cnf, sect, "SelfWinBegin", c.selfWinBegin, Mask(0x3FF)),
      sumWinBegin := IntSetting(cnf, sect, "SumWinBegin", c.sumWinBegin, Mask(0x3FF)),
      sumDelay := IntSetting(cnf, sect, "SumDelay", c.sumDelay, Mask(0x1F)),
      zsWinBegin := IntSetting(cnf, sect, "ZSWinBegin", c.zsWinBegin, Mask(0x1FF)),
      zsWinEnd := IntSetting(cnf, sect, "ZSWinEnd", c.zsWinEnd, Mask(0x1FF)),
      trigCoef := ListSetting(cnf, sect, "TrigCoef", c.trigCoef, 64, false),
      mainTrigMask := ListSetting(cnf, sect, "MainTrigMask", c.mainTrigMask, 4, true),
      selfTrigMask := ListSetting(cnf, sect, "SelfTrigMask", c.selfTrigMask, 4, true),
      trigSumMask := ListSetting(cnf, sect, "TrigSumMask", c.trigSumMask, 4, true),
      invertMask := ListSetting(cnf, sect, "InvertMask", c.invertMask, 4, true))
  }

  /** The section ReadConfig reads in pass `i`: "Def" first, then the module's own. */
  function Section(i: nat, serial: int): string
  {
    if i == 0 then "Def" else DevSection(serial)
  }

  /** The configuration after ReadConfig's two passes over `cnf`: the default section, then the module's own. */
  function Configured(c: Conf, cnf: ConfigFile, serial: int): (r: Conf)
    ensures InRange(c) ==> InRange(r)
  {
    ReadSection(ReadSection(c, cnf, Section(0, serial)), cnf, Section(1, serial))
  }

  /**
   * After both passes an integer setting holds the module's own value when
   * its section has one, else the default section's, else what it held
   * before, each cut to the field's width.
   */
  lemma DeviceOverridesDefault(cnf: ConfigFile, serial: nat, name: string, cur: int, k: Cut)
    ensures var dev := Key(DevSection(serial), name);
            var def := Key("Def", name);
            IntSetting(cnf, Section(1, serial), name, IntSetting(cnf, Section(0, serial), name, cur, k), k) ==
              if dev in cnf && cnf[dev].Int? then Apply(k, cnf[dev].n)
              else if def in cnf && cnf[def].Int? then Apply(k, cnf[def].n)
              else cur
    ensures Key(DevSection(serial), name) != Key("Def", name)
  {
    DevSectionNames(serial);
    assert Key(DevSection(serial), name)[2] == 'v';
  }

  /** The configuration a new module object starts with is in range. */
  lemma InitialInRange()
    ensures InRange(Initial())
  {
  }

  // ---------------------------------------------------------------- geographic address

  /** The number of ones among the `n` lowest bits of `x`. */
  function Ones(x: int, n: nat): (k: nat)
    ensures k <= n
  {
    if n == 0 then 0 else Ones(x, n - 1) + (if And(x, Pow2(n - 1)) != 0 then 1 else 0)
  }

  /** The parity bit the constructor writes beside a geographic address: 1 when GA[4:0] has an even number of ones. */
  function GaParity(ga: int): (s: int)
    ensures s in {0, 1} && (Ones(ga, 5) + s) % 2 == 1
  {
    1 - Ones(ga, 5) % 2
  }

  /** The CPLD C2X word the constructor writes: RESET, the geographic address and its parity, in the high byte. */
  function C2xWord(ga: int, s: int): int
  {
    (CPLD_C2X_RESET + ga * CPLD_C2X_GA + s * CPLD_C2X_PARITY) * 256
  }

  /** For an address of five bits, the C2X word reads back the address, the parity bit and RESET in separate fields. */
  lemma C2xFields(ga: int)
    requires 0 <= ga < 32
    ensures (C2xWord(ga, GaParity(ga)) / 256) % 32 == ga
    ensures (C2xWord(ga, GaParity(ga)) / 256) / 32 % 2 == GaParity(ga)
    ensures (C2xWord(ga, GaParity(ga)) / 256) / 128 == 1
    ensures (Ones((C2xWord(ga, GaParity(ga)) / 256) % 32, 5) + GaParity(ga)) % 2 == 1
  {
    var s := GaParity(ga);
    WordFields(ga, s);
    var lo := C2xWord(ga, s) / 256 % 32;
    assert Ones(lo, 5) == Ones(ga, 5);
  }

  lemma WordFields(ga: int, s: int)
    requires 0 <= ga < 32 && 0 <= s <= 1
    ensures (C2xWord(ga, s) / 256) % 32 == ga
    ensures (C2xWord(ga, s) / 256) / 32 % 2 == s
    ensures (C2xWord(ga, s) / 256) / 128 == 1
  {
    var w := 128 + ga + 32 * s;
    assert C2xWord(ga, s) == w * 256;
    DivUnique(w * 256, 256, w, 0);
    ModUnique(w, 32, 4 + s, ga);
    DivUnique(w, 32, 4 + s, ga);
    DivUnique(w, 128, 1, ga + 32 * s);
  }
}
