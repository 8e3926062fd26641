/*
 * Bus transactions and the scripts that describe the library's protocol
 * sequences.
 *
 * Every routine of the library that talks to the hardware does so by a fixed
 * sequence of register accesses and calls in which each result decides whether
 * the routine goes on, retries (a bounded poll) or gives up with a return
 * code.  A `Step` describes one such access or call, a `Frame` one routine:
 * its steps, the clean-up access it makes before returning, and how its
 * return value is formed.  `Run` checks a recorded trace of transactions
 * against a script; the trace carries the values the hardware answered, so a
 * run is deterministic and tells the outcome the routine must report.
 */
module Script {
  import opened RegMap

  datatype Option<T> = None | Some(value: T)

  /** One transaction on a logged interface. */
  datatype Req =
    | PortWr(bus: Bus, reg: PortReg, val: int)   // store to a serial-port register of the A32 window
    | PortRd(bus: Bus, reg: PortReg)             // load from a serial-port register of the A32 window
    | IcxWr(addr: int, val: int)                 // ICXWrite: a 16-bit register of a slave Xilinx
    | IcxRd(addr: int)                           // ICXRead
    | I2cWr(addr: int, val: int)                 // I2CWrite: a CDCUN register on the main I2C bus
    | I2cRd(addr: int)                           // I2CRead
    | DacSet(val: int)                           // DACSet: the common offset DAC

  /** A transaction and the value it produced (the value read, or the call's return code). */
  datatype Ev = Ev(req: Req, res: int)

  /** The transactions that carry a value to be written. */
  predicate HasVal(r: Req)
  {
    r.PortWr? || r.IcxWr? || r.I2cWr? || r.DacSet?
  }

  /** A test the library makes of a result. */
  datatype Cond =
    | Never
    | NonZero
    | Negative
    | AnySet(mask: nat)                  // result & mask is non-zero
    | NoneSet(mask: nat)                 // result & mask is zero
    | Mismatch(mask: nat, want: nat)     // result & mask differs from want
    | Differs(other: int)                // result differs from other
    | Outside(center: int, tol: int)     // |result - center| > tol

  predicate Holds(c: Cond, v: int)
  {
    match c
    case Never => false
    case NonZero => v != 0
    case Negative => v < 0
    case AnySet(m) => And(v, m) != 0
    case NoneSet(m) => And(v, m) == 0
    case Mismatch(m, w) => And(v, m) != w
    case Differs(o) => v != o
    case Outside(c, tol) => v - c > tol || c - v > tol
  }

  /**
   * The value a transaction writes: the literal in the request, or one formed
   * as `(x & keep) | put` from the last value the routine kept or from the
   * argument it was called with.
   */
  datatype Val = Lit | Derived(keep: nat, put: nat) | FromArg(keep: nat, put: nat)

  function Derive(keep: nat, put: nat, last: int): nat
  {
    Or(And(last, keep), put)
  }

  /** What a routine has: the argument it was called with, the results it keeps and its error tally. */
  datatype State = State(arg: int, kept: seq<int>, tally: int)

  function Last(s: seq<int>): int
  {
    if |s| == 0 then 0 else s[|s| - 1]
  }

  /** The request actually issued in state `st`. */
  function Issued(r: Req, v: Val, st: State): Req
  {
    if !HasVal(r) then r
    else match v
      case Lit => r
      case Derived(keep, put) => r.(val := Derive(keep, put, Last(st.kept)))
      case FromArg(keep, put) => r.(val := Derive(keep, put, st.arg))
  }

  /** The argument a routine passes to a routine it calls: a constant, or `(last & keep) | put` of its last kept value. */
  datatype Arg = Const(n: int) | FromLast(keep: nat, put: nat)

  function ArgValue(a: Arg, st: State): int
  {
    match a
    case Const(n) => n
    case FromLast(keep, put) => Derive(keep, put, Last(st.kept))
  }

  /** How a step's result enters the error tally. */
  datatype Tally = NoTally | CountIf(c: Cond) | AddResult

  function TallyOf(y: Tally, v: int): int
  {
    match y
    case NoTally => 0
    case CountIf(c) => if Holds(c, v) then 1 else 0
    case AddResult => v
  }

  /** The return code of a failing step: a constant, or the failing result itself. */
  datatype Code = Fixed(c: int) | Result

  /** The return value of a routine that completes. */
  datatype Ret =
    | Zero
    | LastKept                     // the last value kept
    | HiLo                         // two kept bytes as a 16-bit word, high byte first
    | Pair                         // two kept values v1, v2 as v1 * 256 + v2
    | Count                        // the error tally

  function Return(r: Ret, st: State): int
  {
    var k := st.kept;
    match r
    case Zero => 0
    case LastKept => Last(k)
    case HiLo => if |k| < 2 then 0 else Byte(k[|k| - 2]) * 256 + Byte(k[|k| - 1])
    case Pair => if |k| < 2 then 0 else k[|k| - 2] * 256 + k[|k| - 1]
    case Count => st.tally
  }

  /** The access a routine makes before it returns. */
  datatype Cleanup = NoCleanup | OnStop(req: Req) | Always(req: Req)

  /** What a step does: one transaction, or a call of another routine. */
  datatype Act = Tx(req: Req, val: Val) | Sub(f: Frame, arg: Arg)

  datatype Frame = Frame(body: seq<Step>, cleanup: Cleanup, ret: Ret)

  datatype Step =
    /**
     * Perform `act`; keep its result if `keep`, add it to the tally, and when
     * `echo` and the tally condition holds perform the act once more (a
     * diagnostic re-read).  If `fail` holds of the result, return `code`.
     */
    | Do(act: Act, fail: Cond, rc: Code, tally: Tally, keep: bool, echo: bool)
    /** Perform `act` up to `limit` times until `busy` does not hold; return `code` if it always did. */
    | Poll(act: Act, busy: Cond, limit: nat, code: int)
    /** Return `code` without touching the hardware. */
    | Halt(code: int)

  /** The result of running a script on a trace: whether and with what code it returned early, and how many events it used. */
  datatype Outcome = Outcome(stopped: bool, code: int, used: nat, st: State)

  /** Performs an act on the front of `t`: its result and the number of events it used. */
  function Perform(a: Act, t: seq<Ev>, st: State): (r: Option<(int, nat)>)
    ensures r.Some? ==> r.value.1 <= |t|
    decreases a, 0
  {
    match a
    case Tx(q, v) =>
      if |t| > 0 && t[0].req == Issued(q, v, st) then Some((t[0].res, 1)) else None
    case Sub(f, x) => RunFrame(f, t, ArgValue(x, st))
  }

  /** Runs a routine called with argument `arg`: its return value and the events it used. */
  function RunFrame(f: Frame, t: seq<Ev>, arg: int): (r: Option<(int, nat)>)
    ensures r.Some? ==> r.value.1 <= |t|
    decreases f, 0
  {
    match Run(f.body, t, State(arg, [], 0))
    case None => None
    case Some(o) =>
      var rv := if o.stopped then o.code else Return(f.ret, o.st);
      match f.cleanup
      case NoCleanup => Some((rv, o.used))
      case OnStop(q) =>
        if !o.stopped then Some((rv, o.used))
        else if o.used < |t| && t[o.used].req == q then Some((rv, o.used + 1))
        else None
      case Always(q) =>
        if o.used < |t| && t[o.used].req == q then Some((rv, o.used + 1)) else None
  }

  /** Performs a poll: whether it saw a ready result, and the events it used. */
  function RunPoll(a: Act, busy: Cond, n: nat, t: seq<Ev>, st: State): (r: Option<(bool, nat)>)
    ensures r.Some? ==> r.value.1 <= |t|
    decreases a, n + 1
  {
    if n == 0 then Some((false, 0))
    else
      match Perform(a, t, st)
      case None => None
      case Some(x) =>
        if !Holds(busy, x.0) then Some((true, x.1))
        else
          match RunPoll(a, busy, n - 1, t[x.1..], st)
          case None => None
          case Some(y) => Some((y.0, x.1 + y.1))
  }

  function RunStep(s: Step, t: seq<Ev>, st: State): (r: Option<Outcome>)
    ensures r.Some? ==> r.value.used <= |t|
    decreases s, 0
  {
    match s
    case Halt(c) => Some(Outcome(true, c, 0, st))
    case Poll(a, busy, limit, c) =>
      (match RunPoll(a, busy, limit, t, st)
       case None => None
       case Some(y) => Some(Outcome(!y.0, if y.0 then 0 else c, y.1, st)))
    case Do(a, fail, code, tally, keep, echo) =>
      match Perform(a, t, st)
      case None => None
      case Some(x) =>
        var v := x.0;
        var st' := State(st.arg, if keep then st.kept + [v] else st.kept, st.tally + TallyOf(tally, v));
        var again := echo && tally.CountIf? && Holds(tally.c, v);
        var used: Option<nat> :=
          if !again then Some(x.1)
          else match Perform(a, t[x.1..], st) case None => None case Some(e) => Some(x.1 + e.1);
        if used.None? then None
        else if Holds(fail, v) then Some(Outcome(true, if code.Fixed? then code.c else v, used.value, st'))
        else Some(Outcome(false, 0, used.value, st'))
  }

  /** Runs a script on the front of `t`, stopping at the first step that returns. */
  function Run(p: seq<Step>, t: seq<Ev>, st: State): (r: Option<Outcome>)
    ensures r.Some? ==> r.value.used <= |t|
    decreases p, 1
  {
    if p == [] then Some(Outcome(false, 0, 0, st))
    else
      match RunStep(p[0], t, st)
      case None => None
      case Some(o) =>
        if o.stopped then Some(o)
        else
          match Run(p[1..], t[o.used..], o.st)
          case None => None
          case Some(o2) => Some(o2.(used := o.used + o2.used))
  }

  // ---------------------------------------------------------------- runs on a whole trace

  /** `t` is exactly the trace of script `p` started in `st`, with outcome `o`. */
  predicate Performs(p: seq<Step>, t: seq<Ev>, st: State, o: Outcome)
  {
    Run(p, t, st) == Some(o) && o.used == |t|
  }

  /** The values script `p` keeps when it runs on the front of `t`; none if it cannot run there. */
  function Kept(p: seq<Step>, t: seq<Ev>, st: State): seq<int>
  {
    match Run(p, t, st)
    case None => []
    case Some(o) => o.st.kept
  }

  /** `t` is exactly the trace of a call of routine `f` with argument `arg` that returned `rc`. */
  predicate Completes(f: Frame, t: seq<Ev>, arg: int, rc: int)
  {
    RunFrame(f, t, arg) == Some((rc, |t|))
  }

  lemma TailOfConcat(t: seq<Ev>, u: seq<Ev>, k: nat)
    requires k <= |t|
    ensures (t + u)[k..] == t[k..] + u
  {
  }

  // A run that succeeds on a trace succeeds in the same way on any extension
  // of it: a routine never looks past the transactions it makes.

  lemma {:induction false} PerformExtends(a: Act, t: seq<Ev>, u: seq<Ev>, st: State)
    requires Perform(a, t, st).Some?
    ensures Perform(a, t + u, st) == Perform(a, t, st)
    decreases a, 0
  {
    match a
    case Tx(q, v) =>
    case Sub(f, x) => FrameExtends(f, t, u, ArgValue(x, st));
  }

  lemma {:induction false} FrameExtends(f: Frame, t: seq<Ev>, u: seq<Ev>, arg: int)
    requires RunFrame(f, t, arg).Some?
    ensures RunFrame(f, t + u, arg) == RunFrame(f, t, arg)
    decreases f, 0
  {
    RunExtends(f.body, t, u, State(arg, [], 0));
  }

  lemma {:induction false} PollExtends(a: Act, busy: Cond, n: nat, t: seq<Ev>, u: seq<Ev>, st: State)
    requires RunPoll(a, busy, n, t, st).Some?
    ensures RunPoll(a, busy, n, t + u, st) == RunPoll(a, busy, n, t, st)
    decreases a, n + 1
  {
    if n > 0 {
      PerformExtends(a, t, u, st);
      var x := Perform(a, t, st).value;
      assert Perform(a, t + u, st) == Some(x);
      if Holds(busy, x.0) {
        TailOfConcat(t, u, x.1);
        PollExtends(a, busy, n - 1, t[x.1..], u, st);
      }
    }
  }

  lemma {:induction false} StepExtends(s: Step, t: seq<Ev>, u: seq<Ev>, st: State)
    requires RunStep(s, t, st).Some?
    ensures RunStep(s, t + u, st) == RunStep(s, t, st)
    decreases s, 0
  {
    match s
    case Halt(c) =>
    case Poll(a, busy, limit, c) => PollExtends(a, busy, limit, t, u, st);
    case Do(a, fail, code, tally, keep, echo) =>
      PerformExtends(a, t, u, st);
      var x := Perform(a, t, st).value;
      if echo && tally.CountIf? && Holds(tally.c, x.0) {
        TailOfConcat(t, u, x.1);
        PerformExtends(a, t[x.1..], u, st);
      }
  }

  lemma {:induction false} RunExtends(p: seq<Step>, t: seq<Ev>, u: seq<Ev>, st: State)
    requires Run(p, t, st).Some?
    ensures Run(p, t + u, st) == Run(p, t, st)
    decreases p, 1
  {
    if p != [] {
      var o := RunStep(p[0], t, st).value;
      assert RunStep(p[0], t + u, st) == Some(o) by {
        StepExtends(p[0], t, u, st);
      }
      if !o.stopped {
        assert Run(p[1..], (t + u)[o.used..], o.st) == Run(p[1..], t[o.used..], o.st) by {
          TailOfConcat(t, u, o.used);
          RunExtends(p[1..], t[o.used..], u, o.st);
        }
      }
    }
  }

  // ---------------------------------------------------------------- sequencing

  /** Running two scripts one after the other is running their concatenation. */
  lemma {:induction false} RunConcat(p: seq<Step>, q: seq<Step>, t: seq<Ev>, u: seq<Ev>, st: State, o1: Outcome, o2: Outcome)
    requires Performs(p, t, st, o1) && !o1.stopped
    requires Performs(q, u, o1.st, o2)
    ensures Performs(p + q, t + u, st, o2.(used := |t| + |u|))
    decreases p
  {
    if p == [] {
      assert p + q == q && t + u == u;
    } else {
      var o := RunStep(p[0], t, st).value;
      StepExtends(p[0], t, u, st);
      var r := Run(p[1..], t[o.used..], o.st).value;
      assert Performs(p[1..], t[o.used..], o.st, r);
      RunConcat(p[1..], q, t[o.used..], u, o.st, r, o2);
      assert (p + q)[1..] == p[1..] + q;
      TailOfConcat(t, u, o.used);
    }
  }

  /** Once a script has returned, the steps after it are never run. */
  lemma {:induction false} RunStops(p: seq<Step>, q: seq<Step>, t: seq<Ev>, st: State, o: Outcome)
    requires Run(p, t, st) == Some(o) && o.stopped
    ensures Run(p + q, t, st) == Some(o)
    decreases p
  {
    assert p != [];
    var o1 := RunStep(p[0], t, st).value;
    assert (p + q)[0] == p[0];
    if !o1.stopped {
      var r := Run(p[1..], t[o1.used..], o1.st).value;
      RunStops(p[1..], q, t[o1.used..], o1.st, r);
      assert (p + q)[1..] == p[1..] + q;
    }
  }

  /** The steps of a script done so far, extended by the next one. */
  lemma Advance(p: seq<Step>, k: nat, t: seq<Ev>, e: seq<Ev>, st: State, o: Outcome, o1: Outcome)
    requires k < |p|
    requires Performs(p[..k], t, st, o) && !o.stopped
    requires Performs([p[k]], e, o.st, o1)
    ensures Performs(p[..k + 1], t + e, st, o1.(used := |t| + |e|))
  {
    assert p[..k + 1] == p[..k] + [p[k]];
    RunConcat(p[..k], [p[k]], t, e, st, o, o1);
  }

  /** A script that has returned early is a run of the whole script. */
  lemma Finish(p: seq<Step>, k: nat, t: seq<Ev>, st: State, o: Outcome)
    requires k <= |p|
    requires Performs(p[..k], t, st, o) && o.stopped
    ensures Performs(p, t, st, o)
  {
    assert p == p[..k] + p[k..];
    RunStops(p[..k], p[k..], t, st, o);
  }

  /** A one-step script runs as its step does. */
  lemma Single(s: Step, t: seq<Ev>, st: State, o: Outcome)
    requires RunStep(s, t, st) == Some(o) && o.used == |t|
    ensures Performs([s], t, st, o)
  {
    assert [s][1..] == [];
  }

  // ---------------------------------------------------------------- polls

  /**
   * A poll of a single read `q` that saw the results of `d`: it completes
   * when the last of them is the first ready one, and times out when all
   * `n` are busy.
   */
  lemma {:induction false} TxPoll(q: Req, busy: Cond, n: nat, d: seq<Ev>, st: State)
    requires 0 < |d| <= n
    requires forall j :: 0 <= j < |d| ==> d[j].req == Issued(q, Lit, st)
    requires forall j :: 0 <= j < |d| - 1 ==> Holds(busy, d[j].res)
    ensures !Holds(busy, d[|d| - 1].res) ==> RunPoll(Tx(q, Lit), busy, n, d, st) == Some((true, |d|))
    ensures Holds(busy, d[|d| - 1].res) && |d| == n ==> RunPoll(Tx(q, Lit), busy, n, d, st) == Some((false, n))
    decreases n
  {
    var a := Tx(q, Lit);
    assert Perform(a, d, st) == Some((d[0].res, 1));
    if |d| > 1 {
      TxPoll(q, busy, n - 1, d[1..], st);
    } else if Holds(busy, d[0].res) && n == 1 {
      assert RunPoll(a, busy, 0, d[1..], st) == Some((false, 0));
    }
  }

  /** A poll that has not started. */
  lemma PollStart(a: Act, busy: Cond, st: State)
    ensures RunPoll(a, busy, 0, [], st) == Some((false, 0))
  {
  }

  // ---------------------------------------------------------------- following a routine step by step

  /** `t'` continues `t`. */
  predicate Grows(t: seq<Ev>, t': seq<Ev>)
  {
    |t| <= |t'| && t'[..|t|] == t
  }

  /** What `t'` added to `t`. */
  function Since(t: seq<Ev>, t': seq<Ev>): seq<Ev>
    requires |t| <= |t'|
  {
    t'[|t|..]
  }

  /**
   * Where a routine is in its script: the first `k` steps of `body`, started in
   * `st0` on a trace that stood at `t0`, have run without returning and ended
   * in outcome `o`.
   */
  datatype Cursor = Cursor(body: seq<Step>, k: nat, t0: seq<Ev>, st0: State, o: Outcome)

  predicate Ran(c: Cursor, t: seq<Ev>)
  {
    c.k <= |c.body| && Grows(c.t0, t) && Performs(c.body[..c.k], Since(c.t0, t), c.st0, c.o)
  }

  /** The routine is at step `k` and has not returned. */
  predicate At(c: Cursor, t: seq<Ev>)
  {
    Ran(c, t) && !c.o.stopped
  }

  /** The routine has returned, or has run its whole script. */
  predicate Over(c: Cursor, t: seq<Ev>)
  {
    Ran(c, t) && (c.o.stopped || c.k == |c.body|)
  }

  /** The steps of `p` come next in `b`, from position `k` on. */
  predicate Upcoming(b: seq<Step>, k: int, p: seq<Step>)
  {
    0 <= k && k + |p| <= |b| && b[k..k + |p|] == p
  }

  /** Two parts upcoming one after the other. */
  lemma Split(b: seq<Step>, k: int, p: seq<Step>, q: seq<Step>)
    requires Upcoming(b, k, p + q)
    ensures Upcoming(b, k, p) && Upcoming(b, k + |p|, q)
  {
    assert b[k..k + |p|] == (p + q)[..|p|];
    assert b[k + |p|..k + |p| + |q|] == (p + q)[|p|..];
  }

  /** What the routine returns once it is over. */
  function Returned(c: Cursor, r: Ret): int
  {
    if c.o.stopped then c.o.code else Return(r, c.o.st)
  }

  /** A routine that has run its whole script kept what the cursor kept. */
  lemma KeptOver(c: Cursor, t: seq<Ev>)
    requires Ran(c, t) && c.k == |c.body|
    ensures Kept(c.body, Since(c.t0, t), c.st0) == c.o.st.kept
  {
    assert c.body[..c.k] == c.body;
  }

  /** The cursor of a routine that has not started. */
  lemma Start(body: seq<Step>, t: seq<Ev>, st: State)
    ensures At(Cursor(body, 0, t, st, Outcome(false, 0, 0, st)), t)
  {
    assert body[..0] == [];
  }

  /** The cursor after the next step ran on `e` with outcome `o1`. */
  function Next(c: Cursor, t: seq<Ev>, e: seq<Ev>, o1: Outcome): Cursor
    requires |c.t0| <= |t|
  {
    c.(k := c.k + 1, o := o1.(used := |t| - |c.t0| + |e|))
  }

  /**
   * Running the next step on `e` moves the cursor on; if that step returned,
   * the routine's whole script has run.
   */
  lemma Stepped(c: Cursor, t: seq<Ev>, e: seq<Ev>, o1: Outcome)
    requires At(c, t) && c.k < |c.body|
    requires Performs([c.body[c.k]], e, c.o.st, o1)
    ensures Ran(Next(c, t, e, o1), t + e)
  {
    assert Since(c.t0, t + e) == Since(c.t0, t) + e;
    Advance(c.body, c.k, Since(c.t0, t), e, c.st0, c.o, o1);
  }

  /** A routine that is over is completed by its clean-up access `e`. */
  lemma Finished(f: Frame, c: Cursor, t: seq<Ev>, e: seq<Ev>)
    requires c.body == f.body && c.st0 == State(c.st0.arg, [], 0) && Over(c, t)
    requires match f.cleanup
      case NoCleanup => e == []
      case OnStop(q) => if c.o.stopped then |e| == 1 && e[0].req == q else e == []
      case Always(q) => |e| == 1 && e[0].req == q
    ensures Grows(c.t0, t + e) && Completes(f, Since(c.t0, t + e), c.st0.arg, Returned(c, f.ret))
  {
    if c.o.stopped {
      Finish(c.body, c.k, Since(c.t0, t), c.st0, c.o);
    } else {
      assert c.body[..c.k] == c.body;
    }
    Close(f, Since(c.t0, t), c.st0.arg, c.o, e);
    assert Since(c.t0, t + e) == Since(c.t0, t) + e;
  }

  /** The outcome of a `Do` step whose act gave `v` and used `n` events. */
  function DoOutcome(s: Step, v: int, n: nat, st: State): Outcome
    requires s.Do?
  {
    var st' := State(st.arg, if s.keep then st.kept + [v] else st.kept, st.tally + TallyOf(s.tally, v));
    if Holds(s.fail, v) then Outcome(true, if s.rc.Fixed? then s.rc.c else v, n, st')
    else Outcome(false, 0, n, st')
  }

  /** A `Do` step of one transaction runs on that transaction's event. */
  lemma DoTx(s: Step, e: Ev, st: State)
    requires s.Do? && s.act.Tx? && !s.echo
    requires e.req == Issued(s.act.req, s.act.val, st)
    ensures Performs([s], [e], st, DoOutcome(s, e.res, 1, st))
  {
    assert Perform(s.act, [e], st) == Some((e.res, 1));
    Single(s, [e], st, DoOutcome(s, e.res, 1, st));
  }

  /** A `Do` step that calls a routine runs on the trace of that call. */
  lemma DoSub(s: Step, e: seq<Ev>, st: State, rc: int)
    requires s.Do? && s.act.Sub? && !s.echo
    requires Completes(s.act.f, e, ArgValue(s.act.arg, st), rc)
    ensures Performs([s], e, st, DoOutcome(s, rc, |e|, st))
  {
    assert Perform(s.act, e, st) == Some((rc, |e|));
    Single(s, e, st, DoOutcome(s, rc, |e|, st));
  }

  /** The cursor after the next step, a call of a routine, completed on the events from `t` to `t'` with result `rc`. */
  lemma Called(c: Cursor, t: seq<Ev>, t': seq<Ev>, rc: int) returns (c': Cursor)
    requires At(c, t) && c.k < |c.body| && Grows(t, t')
    requires c.body[c.k].Do? && c.body[c.k].act.Sub? && !c.body[c.k].echo
    requires Completes(c.body[c.k].act.f, Since(t, t'), ArgValue(c.body[c.k].act.arg, c.o.st), rc)
    ensures c'.k == c.k + 1 && c'.body == c.body && c'.t0 == c.t0 && c'.st0 == c.st0
    ensures Ran(c', t') && c'.o.stopped == Holds(c.body[c.k].fail, rc)
    ensures c'.o.stopped ==> c'.o.code == if c.body[c.k].rc.Fixed? then c.body[c.k].rc.c else rc
    ensures c'.o.st == c.o.st.(kept := if c.body[c.k].keep then c.o.st.kept + [rc] else c.o.st.kept,
                               tally := c.o.st.tally + TallyOf(c.body[c.k].tally, rc))
  {
    var e := Since(t, t');
    var o1 := DoOutcome(c.body[c.k], rc, |e|, c.o.st);
    DoSub(c.body[c.k], e, c.o.st, rc);
    Stepped(c, t, e, o1);
    assert t + e == t';
    c' := Next(c, t, e, o1);
  }

  /** A poll of one read that saw the events `d`: it is ready when the last one is, and times out when all `limit` were busy. */
  lemma PollTx(s: Step, d: seq<Ev>, st: State, ready: bool)
    requires s.Poll? && s.act.Tx? && s.act.val == Lit && !HasVal(s.act.req)
    requires 0 < |d| <= s.limit
    requires forall j :: 0 <= j < |d| ==> d[j].req == s.act.req
    requires forall j :: 0 <= j < |d| - 1 ==> Holds(s.busy, d[j].res)
    requires ready <==> !Holds(s.busy, d[|d| - 1].res)
    requires !ready ==> |d| == s.limit
    ensures Performs([s], d, st, Outcome(!ready, if ready then 0 else s.code, |d|, st))
  {
    TxPoll(s.act.req, s.busy, s.limit, d, st);
    Single(s, d, st, Outcome(!ready, if ready then 0 else s.code, |d|, st));
  }

  /** A routine whose script has run is completed by its clean-up access. */
  lemma Close(f: Frame, t: seq<Ev>, arg: int, o: Outcome, e: seq<Ev>)
    requires Performs(f.body, t, State(arg, [], 0), o)
    requires match f.cleanup
      case NoCleanup => e == []
      case OnStop(q) => if o.stopped then |e| == 1 && e[0].req == q else e == []
      case Always(q) => |e| == 1 && e[0].req == q
    ensures Completes(f, t + e, arg, if o.stopped then o.code else Return(f.ret, o.st))
  {
    RunExtends(f.body, t, e, State(arg, [], 0));
    assert (t + e)[|t|..] == e;
  }

  /** The cursor after a poll of one read that saw the events `d`. */
  lemma Polled(c: Cursor, t: seq<Ev>, d: seq<Ev>, ready: bool) returns (c': Cursor)
    requires At(c, t) && c.k < |c.body|
    requires c.body[c.k].Poll? && c.body[c.k].act.Tx? && c.body[c.k].act.val == Lit && !HasVal(c.body[c.k].act.req)
    requires 0 < |d| <= c.body[c.k].limit
    requires forall j :: 0 <= j < |d| ==> d[j].req == c.body[c.k].act.req
    requires forall j :: 0 <= j < |d| - 1 ==> Holds(c.body[c.k].busy, d[j].res)
    requires ready <==> !Holds(c.body[c.k].busy, d[|d| - 1].res)
    requires !ready ==> |d| == c.body[c.k].limit
    ensures c'.k == c.k + 1 && c'.body == c.body && c'.t0 == c.t0 && c'.st0 == c.st0
    ensures Ran(c', t + d) && c'.o.stopped == !ready
    ensures ready ==> c'.o.st == c.o.st
    ensures !ready ==> c'.o.code == c.body[c.k].code
  {
    var o1 := Outcome(!ready, if ready then 0 else c.body[c.k].code, |d|, c.o.st);
    PollTx(c.body[c.k], d, c.o.st, ready);
    Stepped(c, t, d, o1);
    c' := Next(c, t, d, o1);
  }

  // ---------------------------------------------------------------- how a run of single transactions and polls ends

  /** A step of one transaction that returns a fixed code when its test holds, or a poll of one read. */
  predicate Simple(s: Step)
  {
    (s.Do? && s.act.Tx? && s.rc.Fixed? && s.tally == NoTally && !s.echo)
    || (s.Poll? && s.act.Tx? && s.act.val == Lit && !HasVal(s.act.req) && s.limit > 0)
  }

  /** Which register a request goes to and how, its written value blanked. */
  function Target(r: Req): Req
  {
    if HasVal(r) then r.(val := 0) else r
  }

  /** The last `n` events of `u` are reads `q` for which `busy` held: a poll of `q` ran out there. */
  predicate TimedOut(u: seq<Ev>, q: Req, busy: Cond, n: nat)
  {
    n <= |u| && forall k :: |u| - n <= k < |u| ==> u[k].req == q && Holds(busy, u[k].res)
  }

  /** Step `s` made the run return `c` at the end of `u`: its transaction failed its test, or its poll ran out. */
  predicate StopsOn(s: Step, u: seq<Ev>, c: int)
  {
    0 < |u| &&
    if s.Do? then s.act.Tx? && s.rc.Fixed? && c == s.rc.c
                  && Target(u[|u| - 1].req) == Target(s.act.req) && Holds(s.fail, u[|u| - 1].res)
    else s.Poll? && s.act.Tx? && c == s.code && TimedOut(u, s.act.req, s.busy, s.limit)
  }

  /** Event `e` ends step `s`, after which the routine went on; a kept result is the last one kept. */
  predicate Finishes(s: Step, e: Ev, kept: seq<int>)
  {
    (s.Do? || s.Poll?) && s.act.Tx? && Target(e.req) == Target(s.act.req)
    && (s.Poll? ==> !Holds(s.busy, e.res))
    && (s.Do? ==> !Holds(s.fail, e.res) && (s.keep ==> Last(kept) == e.res))
  }

  /** The last write of `u`. */
  function LastWrite(u: seq<Ev>): Option<Req>
  {
    if u == [] then None
    else if HasVal(u[|u| - 1].req) then Some(u[|u| - 1].req)
    else LastWrite(u[..|u| - 1])
  }

  /** The last write script `p` makes when it runs to its end, called with `arg`. */
  function LastPlanned(p: seq<Step>, arg: int): Option<Req>
  {
    if p == [] then None
    else if p[|p| - 1].Do? && p[|p| - 1].act.Tx? && HasVal(p[|p| - 1].act.req)
    then Some(Issued(p[|p| - 1].act.req, p[|p| - 1].act.val, State(arg, [], 0)))
    else LastPlanned(p[..|p| - 1], arg)
  }

  lemma {:induction false} LastWriteConcat(u: seq<Ev>, v: seq<Ev>)
    ensures LastWrite(u + v) == if LastWrite(v).Some? then LastWrite(v) else LastWrite(u)
    decreases |v|
  {
    if v != [] {
      assert (u + v)[|u + v| - 1] == v[|v| - 1];
      assert (u + v)[..|u + v| - 1] == u + v[..|v| - 1];
      LastWriteConcat(u, v[..|v| - 1]);
    } else {
      assert u + v == u;
    }
  }

  lemma {:induction false} LastPlannedConcat(p: seq<Step>, q: seq<Step>, arg: int)
    ensures LastPlanned(p + q, arg) == if LastPlanned(q, arg).Some? then LastPlanned(q, arg) else LastPlanned(p, arg)
    decreases |q|
  {
    if q != [] {
      assert (p + q)[|p + q| - 1] == q[|q| - 1];
      assert (p + q)[..|p + q| - 1] == p + q[..|q| - 1];
      LastPlannedConcat(p, q[..|q| - 1], arg);
    } else {
      assert p + q == p;
    }
  }

  /** A completed run of a routine with a clean-up access: the run of its script, and the clean-up after it when it returned early. */
  lemma CleanupRun(f: Frame, t: seq<Ev>, arg: int, rc: int) returns (o: Outcome)
    requires !f.cleanup.NoCleanup? && Completes(f, t, arg, rc)
    ensures Run(f.body, t, State(arg, [], 0)) == Some(o)
    ensures o.stopped || f.cleanup.Always? ==> |t| == o.used + 1 && t[o.used].req == f.cleanup.req
    ensures !o.stopped && f.cleanup.OnStop? ==> |t| == o.used
    ensures rc == if o.stopped then o.code else Return(f.ret, o.st)
  {
    o := Run(f.body, t, State(arg, [], 0)).value;
  }

  /** The last write step of `p` is step `k`, when no step after it writes. */
  lemma {:induction false} LastPlannedAt(p: seq<Step>, k: nat, arg: int)
    requires k < |p| && p[k].Do? && p[k].act.Tx? && HasVal(p[k].act.req)
    requires forall j :: k < j < |p| ==> !(p[j].Do? && p[j].act.Tx? && HasVal(p[j].act.req))
    ensures LastPlanned(p, arg) == Some(Issued(p[k].act.req, p[k].act.val, State(arg, [], 0)))
    decreases |p|
  {
    if k < |p| - 1 {
      var q := p[..|p| - 1];
      assert forall j :: k < j < |q| ==> q[j] == p[j];
      LastPlannedAt(q, k, arg);
    }
  }

  /** A trace of reads has no last write. */
  lemma {:induction false} NoWrite(u: seq<Ev>)
    requires forall k :: 0 <= k < |u| ==> !HasVal(u[k].req)
    ensures LastWrite(u) == None
    decreases |u|
  {
    if u != [] {
      NoWrite(u[..|u| - 1]);
    }
  }

  /** A poll of the read `q` reads `q` each time; it saw a ready result last, or `n` busy ones. */
  lemma {:induction false} PollFacts(q: Req, busy: Cond, n: nat, t: seq<Ev>, st: State, y: (bool, nat))
    requires !HasVal(q) && RunPoll(Tx(q, Lit), busy, n, t, st) == Some(y)
    ensures y.1 <= n && forall k :: 0 <= k < y.1 ==> t[k].req == q
    ensures y.0 ==> 0 < y.1 && !Holds(busy, t[y.1 - 1].res)
    ensures !y.0 ==> y.1 == n && forall k :: 0 <= k < n ==> Holds(busy, t[k].res)
    decreases n
  {
    if n > 0 {
      assert t[0].req == q;
      if Holds(busy, t[0].res) {
        var z := RunPoll(Tx(q, Lit), busy, n - 1, t[1..], st).value;
        PollFacts(q, busy, n - 1, t[1..], st, z);
        assert y == (z.0, 1 + z.1);
        forall k | 0 <= k < y.1
          ensures t[k].req == q && (!y.0 ==> Holds(busy, t[k].res))
        {
          if k > 0 {
            assert t[k] == t[1..][k - 1];
          }
        }
      }
    }
  }

  /** What one simple step does on the front of `t`. */
  lemma SimpleStep(s: Step, t: seq<Ev>, st: State, o: Outcome)
    requires Simple(s) && RunStep(s, t, st) == Some(o)
    ensures 0 < o.used && o.st.arg == st.arg
    ensures s.Do? ==> o.used == 1 && t[0].req == Issued(s.act.req, s.act.val, st)
                      && o.st.kept == (if s.keep then st.kept + [t[0].res] else st.kept)
    ensures s.Poll? ==> o.st == st && forall k :: 0 <= k < o.used ==> t[k].req == s.act.req
    ensures o.stopped ==> StopsOn(s, t[..o.used], o.code)
    ensures !o.stopped ==> Finishes(s, t[o.used - 1], o.st.kept)
  {
    if s.Poll? {
      var y := RunPoll(s.act, s.busy, s.limit, t, st).value;
      PollFacts(s.act.req, s.busy, s.limit, t, st, y);
    }
  }

  /**
   * How a script of simple steps ends: when it returns early, one of its
   * steps failed its test or ran out of polls on the last event; when it runs
   * to its end, the last event ends the last step.
   */
  lemma {:induction false} SimpleRun(p: seq<Step>, t: seq<Ev>, st: State, o: Outcome)
    requires forall s :: s in p ==> Simple(s)
    requires Run(p, t, st) == Some(o)
    ensures o.st.arg == st.arg && (p != [] ==> 0 < o.used)
    ensures o.stopped ==> exists i :: 0 <= i < |p| && StopsOn(p[i], t[..o.used], o.code)
    ensures !o.stopped && p != [] ==> Finishes(p[|p| - 1], t[o.used - 1], o.st.kept)
    decreases p
  {
    if p != [] {
      var o1 := RunStep(p[0], t, st).value;
      SimpleStep(p[0], t, st, o1);
      if o1.stopped {
        assert StopsOn(p[0], t[..o.used], o.code);
      } else {
        var r := t[o1.used..];
        var o2 := Run(p[1..], r, o1.st).value;
        assert forall s :: s in p[1..] ==> s in p;
        SimpleRun(p[1..], r, o1.st, o2);
        if o2.stopped {
          var i :| 0 <= i < |p[1..]| && StopsOn(p[1..][i], r[..o2.used], o2.code);
          TimedOutSuffix(t[..o.used], o1.used, p[i + 1]);
          assert r[..o2.used] == t[..o.used][o1.used..];
          assert StopsOn(p[i + 1], t[..o.used], o.code);
        } else if p[1..] == [] {
          assert p[|p| - 1] == p[0];
        } else {
          assert r[o2.used - 1] == t[o.used - 1];
        }
      }
    }
  }

  /** A poll that ran out on a suffix of `u` ran out on `u`. */
  lemma TimedOutSuffix(u: seq<Ev>, j: nat, s: Step)
    requires j <= |u| && (s.Poll? || s.Do?) && s.act.Tx?
    ensures s.Poll? && TimedOut(u[j..], s.act.req, s.busy, s.limit) ==> TimedOut(u, s.act.req, s.busy, s.limit)
  {
    if s.Poll? && TimedOut(u[j..], s.act.req, s.busy, s.limit) {
      forall k | |u| - s.limit <= k < |u|
        ensures u[k].req == s.act.req && Holds(s.busy, u[k].res)
      {
        assert u[k] == u[j..][k - j];
      }
    }
  }

  /** A script of simple steps that ran to its end: no write failed the test `wf` that all its writes make. */
  lemma {:induction false} SimpleWrites(p: seq<Step>, t: seq<Ev>, st: State, o: Outcome, wf: Cond)
    requires forall s :: s in p ==> Simple(s) && (s.Do? && HasVal(s.act.req) ==> s.fail == wf)
    requires Run(p, t, st) == Some(o) && !o.stopped
    ensures forall k :: 0 <= k < o.used && HasVal(t[k].req) ==> !Holds(wf, t[k].res)
    decreases p
  {
    if p != [] {
      var o1 := RunStep(p[0], t, st).value;
      SimpleStep(p[0], t, st, o1);
      var r := t[o1.used..];
      var o2 := Run(p[1..], r, o1.st).value;
      assert forall s :: s in p[1..] ==> s in p;
      SimpleWrites(p[1..], r, o1.st, o2, wf);
      forall k | 0 <= k < o.used && HasVal(t[k].req)
        ensures !Holds(wf, t[k].res)
      {
        if k >= o1.used {
          assert t[k] == r[k - o1.used];
        }
      }
    }
  }

  /** A script of simple steps that writes no value derived from a kept result makes the writes it plans, the last one last. */
  lemma {:induction false} SimpleLastWrite(p: seq<Step>, t: seq<Ev>, st: State, o: Outcome)
    requires forall s :: s in p ==> Simple(s) && !s.act.val.Derived?
    requires Run(p, t, st) == Some(o) && !o.stopped
    ensures LastWrite(t[..o.used]) == LastPlanned(p, st.arg)
    decreases p
  {
    if p != [] {
      var o1 := RunStep(p[0], t, st).value;
      SimpleStep(p[0], t, st, o1);
      var r := t[o1.used..];
      var o2 := Run(p[1..], r, o1.st).value;
      assert forall s :: s in p[1..] ==> s in p;
      SimpleLastWrite(p[1..], r, o1.st, o2);
      SimpleRun(p[1..], r, o1.st, o2);
      assert t[..o.used] == t[..o1.used] + r[..o2.used];
      LastWriteConcat(t[..o1.used], r[..o2.used]);
      assert p == [p[0]] + p[1..];
      LastPlannedConcat([p[0]], p[1..], st.arg);
      if p[0].Poll? {
        NoWrite(t[..o1.used]);
      } else {
        assert [p[0]][..0] == [];
        assert t[..o1.used] == [t[0]];
        assert [t[0]][..0] == [];
      }
    }
  }
}
