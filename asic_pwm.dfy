/** The PWM block (`asic_pwm.c`): fixed control words, per-channel delay and
    duty registers, and the sync pulse (bit 15 of the configuration register)
    that most calls raise after their write. */
module AsicPwm {
  import opened AsicCommon
  import opened AsicRegs
  import opened AsicSpi

  const PWM_SYNC: Word := 0x8000                  // 1 << 15
  const DISABLE_SC_PROTECTION: Word := 0x0040     // 1 << 6
  const SC_MASK: Word := 0x003F
  const CLEAR_SHORTS: Word := 0xFFFF
  const DITHER_SEED_COMMIT: Word := 0x0800        // 1 << 11
  const LINEAR_MODE_DISABLE: Word := 0x4000       // 1 << 14
  const COUNT_FROM_CENTRE_ENABLE: Word := 0x1000  // 1 << 12
  const DITHER_SEED_UPPER: Word := 0x00A9
  const DITHER_SEED_LOWER: Word := 0x0001

  // ---------------------------------------------------------------------
  // Control words
  // ---------------------------------------------------------------------

  /** The short-circuit configuration word: protection-disable flag in bit 6,
      the filter in bits 5..0, nothing above. */
  function ShortConfigWord(enable: bool, filter: Word): (w: Word)
    ensures w & 0xFF80 == 0
    ensures w & SC_MASK == filter & SC_MASK
    ensures (w & DISABLE_SC_PROTECTION == 0) <==> enable
  {
    (if enable then 0x0000 else DISABLE_SC_PROTECTION) | (filter & SC_MASK)
  }

  /** The output-enable and dither words: all ones when on, all zeros when off. */
  function OnOffWord(on: bool): (w: Word)
    ensures w == 0xFFFF <==> on
    ensures w == 0x0000 <==> !on
  {
    if on then 0xFFFF else 0x0000
  }

  /** The output-enable word of `asic_pwm_set_highz`: hi-z switches every
      output off, so its polarity is the opposite of `OnOffWord`. */
  function HighZWord(enableHighz: bool): (w: Word)
    ensures w == !OnOffWord(enableHighz)
  {
    if enableHighz then 0x0000 else 0xFFFF
  }

  /** The configuration word of `asic_pwm_set_config`: the dither seed and its
      commit bit in bits 11..0, linear mode disabled by bit 14, count from
      centre enabled by bit 12, and never the sync bit. */
  function ConfigWord(linear: bool, fromCentre: bool): (w: Word)
    ensures w & PWM_SYNC == 0 && w & 0x2000 == 0
    ensures w & 0x0FFF == 0x0AA5
    ensures (w & LINEAR_MODE_DISABLE == 0) <==> linear
    ensures (w & COUNT_FROM_CENTRE_ENABLE == 0) <==> !fromCentre
  {
    var seed := DITHER_SEED_COMMIT | (DITHER_SEED_UPPER << 2) | DITHER_SEED_LOWER;
    var modal := if !linear then seed | LINEAR_MODE_DISABLE else seed;
    if fromCentre then modal | COUNT_FROM_CENTRE_ENABLE else modal
  }

  /** The register of `channel`, a stride of two above `base`, in the 16-bit
      arithmetic of the `uint16_t` address. */
  function ChannelReg(base: RegId, channel: Word): RegId {
    base + channel * 2
  }

  /** Channels below 0x8000 have registers of their own; from there on the
      16-bit address wraps onto the lower channels. */
  lemma ChannelRegs(base: RegId, c1: Word, c2: Word)
    ensures c1 < 0x8000 && c2 < 0x8000 ==> (ChannelReg(base, c1) == ChannelReg(base, c2) <==> c1 == c2)
    ensures c1 < 0x8000 ==> ChannelReg(base, c1 + 0x8000) == ChannelReg(base, c1)
  {
  }

  // ---------------------------------------------------------------------
  // Specifications
  // ---------------------------------------------------------------------

  /** `asic_pwm_sync`: read the configuration register, set bit 15, write it back. */
  function SyncSpec(o: Oracle, dev: bv32, i: nat): Outcome {
    Rmw(o, dev, i, REG_PWM_CONFIG, ReadValue(o, i) | PWM_SYNC)
  }

  /** A failed read issues no write; otherwise the word written back is the
      word read with bit 15 set and every other bit kept. */
  lemma SyncSetsOnlyBit15(o: Oracle, dev: bv32, i: nat)
    ensures StatusAt(o, i).Err? ==> SyncSpec(o, dev, i) == Outcome([ReadTx(dev, REG_PWM_CONFIG)], Err)
    ensures StatusAt(o, i).Success? ==>
      var r := SyncSpec(o, dev, i);
      && |r.txns| == 2 && r.txns[0] == ReadTx(dev, REG_PWM_CONFIG)
      && r.txns[1].WriteTx? && r.txns[1].reg == REG_PWM_CONFIG
      && r.txns[1].data & PWM_SYNC == PWM_SYNC
      && r.txns[1].data & 0x7FFF == ReadValue(o, i) & 0x7FFF
      && r.st == StatusAt(o, i + 1)
  {
    RmwShape(o, dev, i, REG_PWM_CONFIG, ReadValue(o, i) | PWM_SYNC);
  }

  function ShortConfigSpec(o: Oracle, dev: bv32, i: nat, enable: bool, filter: Word): Outcome {
    WriteSpec(o, dev, i, REG_SHORT_CONFIG, ShortConfigWord(enable, filter))
  }

  function ShortClearSpec(o: Oracle, dev: bv32, i: nat): Outcome {
    WriteSpec(o, dev, i, REG_SHORT_DETECT, CLEAR_SHORTS)
  }

  function ShortGetSpec(o: Oracle, dev: bv32, i: nat): Outcome {
    ReadSpec(o, dev, i, REG_SHORT_DETECT)
  }

  /** Write `v` to `reg`, then sync when `sync` holds, whatever the write
      returned; the result is the write's. */
  function WriteThenSync(o: Oracle, dev: bv32, log: seq<Txn>, reg: RegId, v: Word, sync: bool): Run {
    var w := Issue(log, WriteSpec(o, dev, |log|, reg, v));
    if sync then Run(Issue(w.log, SyncSpec(o, dev, |w.log|)).log, w.st) else w
  }

  /** The write comes first and its status is the result; the sync, when
      asked for, follows even a failed write, and nothing else is issued. */
  lemma WriteThenSyncIssues(o: Oracle, dev: bv32, log: seq<Txn>, reg: RegId, v: Word, sync: bool)
    ensures var r := WriteThenSync(o, dev, log, reg, v, sync);
      && r.st == StatusAt(o, |log|)
      && r.log[..|log|] == log
      && r.log[|log|] == WriteTx(dev, reg, v)
      && r.log[|log| + 1..] == (if sync then SyncSpec(o, dev, |log| + 1).txns else [])
  {
    var r := WriteThenSync(o, dev, log, reg, v, sync);
    var s := if sync then SyncSpec(o, dev, |log| + 1).txns else [];
    assert r.log == log + [WriteTx(dev, reg, v)] + s;
  }

  /** The calls `asic_pwm_init` chains. */
  datatype Step =
    | ShortConfig(enable: bool, filter: Word)
    | ShortClear
    | HighZ(enableHighz: bool)
    | Config(linear: bool, fromCentre: bool)
    | DitherStep(on: bool)
    | EnableStep(on: bool)

  /** The run of one step issued after `log`. */
  function StepRun(o: Oracle, dev: bv32, log: seq<Txn>, s: Step): Run {
    match s
    case ShortConfig(enable, filter) => Issue(log, ShortConfigSpec(o, dev, |log|, enable, filter))
    case ShortClear => Issue(log, ShortClearSpec(o, dev, |log|))
    case HighZ(b) => WriteThenSync(o, dev, log, REG_PWM_OE, HighZWord(b), true)
    case Config(linear, fromCentre) => WriteThenSync(o, dev, log, REG_PWM_CONFIG, ConfigWord(linear, fromCentre), true)
    case DitherStep(b) => WriteThenSync(o, dev, log, REG_asic_pwm_dither, OnOffWord(b), true)
    case EnableStep(b) => WriteThenSync(o, dev, log, REG_PWM_EN, OnOffWord(b), true)
  }

  /** The write each step issues first. */
  function FirstWrite(dev: bv32, s: Step): Txn {
    match s
    case ShortConfig(enable, filter) => WriteTx(dev, REG_SHORT_CONFIG, ShortConfigWord(enable, filter))
    case ShortClear => WriteTx(dev, REG_SHORT_DETECT, CLEAR_SHORTS)
    case HighZ(b) => WriteTx(dev, REG_PWM_OE, HighZWord(b))
    case Config(linear, fromCentre) => WriteTx(dev, REG_PWM_CONFIG, ConfigWord(linear, fromCentre))
    case DitherStep(b) => WriteTx(dev, REG_asic_pwm_dither, OnOffWord(b))
    case EnableStep(b) => WriteTx(dev, REG_PWM_EN, OnOffWord(b))
  }

  /** Every step keeps the earlier log and issues its first write next. */
  lemma StepRunStarts(o: Oracle, dev: bv32, log: seq<Txn>, s: Step)
    ensures var r := StepRun(o, dev, log, s);
      |r.log| > |log| && r.log[..|log|] == log && r.log[|log|] == FirstWrite(dev, s)
  {
    match s
    case ShortConfig(enable, filter) =>
      assert (log + [FirstWrite(dev, s)])[..|log|] == log;
    case ShortClear =>
      assert (log + [FirstWrite(dev, s)])[..|log|] == log;
    case HighZ(b) =>
      WriteThenSyncIssues(o, dev, log, REG_PWM_OE, HighZWord(b), true);
    case Config(linear, fromCentre) =>
      WriteThenSyncIssues(o, dev, log, REG_PWM_CONFIG, ConfigWord(linear, fromCentre), true);
    case DitherStep(b) =>
      WriteThenSyncIssues(o, dev, log, REG_asic_pwm_dither, OnOffWord(b), true);
    case EnableStep(b) =>
      WriteThenSyncIssues(o, dev, log, REG_PWM_EN, OnOffWord(b), true);
  }

  /** Run the steps of `ss` in order after `r`, each only if everything
      before it succeeded. */
  function RunSteps(o: Oracle, dev: bv32, r: Run, ss: seq<Step>): Run
    decreases |ss|
  {
    if ss == [] then r else RunSteps(o, dev, Next(r, StepRun(o, dev, r.log, ss[0])), ss[1..])
  }

  /** `asic_pwm_init`'s chain: short-circuit control, clear the shorts,
      outputs out of hi-z, configuration, dither, outputs enabled. */
  function InitPlan(enableSc: bool, scFilter: bv8, linear: bool, dither: bool, fromCentre: bool): seq<Step> {
    [ShortConfig(enableSc, scFilter as Word), ShortClear, HighZ(false), Config(linear, fromCentre), DitherStep(dither), EnableStep(true)]
  }

  /** The init chain writes, first in each step, the short-circuit word, the
      clear-all word, outputs on (hi-z off), the configuration word, the dither
      word and outputs enabled. */
  lemma InitPlanWrites(dev: bv32, enableSc: bool, scFilter: bv8, linear: bool, dither: bool, fromCentre: bool)
    ensures var p := InitPlan(enableSc, scFilter, linear, dither, fromCentre);
      && |p| == 6
      && FirstWrite(dev, p[0]) == WriteTx(dev, REG_SHORT_CONFIG, ShortConfigWord(enableSc, scFilter as Word))
      && FirstWrite(dev, p[1]) == WriteTx(dev, REG_SHORT_DETECT, 0xFFFF)
      && FirstWrite(dev, p[2]) == WriteTx(dev, REG_PWM_OE, 0xFFFF)
      && FirstWrite(dev, p[3]) == WriteTx(dev, REG_PWM_CONFIG, ConfigWord(linear, fromCentre))
      && FirstWrite(dev, p[4]) == WriteTx(dev, REG_asic_pwm_dither, if dither then 0xFFFF else 0x0000)
      && FirstWrite(dev, p[5]) == WriteTx(dev, REG_PWM_EN, 0xFFFF)
  {
  }

  /** A failed run issues nothing more. */
  lemma {:induction false} RunStepsAfterFailure(o: Oracle, dev: bv32, r: Run, ss: seq<Step>)
    requires r.st.Err?
    ensures RunSteps(o, dev, r, ss) == r
    decreases |ss|
  {
    if ss != [] {
      RunStepsAfterFailure(o, dev, r, ss[1..]);
    }
  }

  /** Running a plan is running its first `k` steps, then the rest. */
  lemma {:induction false} RunStepsSplit(o: Oracle, dev: bv32, r: Run, ss: seq<Step>, k: nat)
    requires k <= |ss|
    ensures RunSteps(o, dev, r, ss) == RunSteps(o, dev, RunSteps(o, dev, r, ss[..k]), ss[k..])
    decreases k
  {
    if k > 0 {
      var r' := Next(r, StepRun(o, dev, r.log, ss[0]));
      assert ss[..k][0] == ss[0] && ss[..k][1..] == ss[1..][..k - 1];
      assert ss[k..] == ss[1..][k - 1..];
      RunStepsSplit(o, dev, r', ss[1..], k - 1);
    }
  }

  /** One more step of a plan. */
  lemma RunStepsAdvance(o: Oracle, dev: bv32, r: Run, ss: seq<Step>, k: nat)
    requires k < |ss|
    ensures RunSteps(o, dev, r, ss[..k + 1]) == Next(RunSteps(o, dev, r, ss[..k]), StepRun(o, dev, RunSteps(o, dev, r, ss[..k]).log, ss[k]))
  {
    RunStepsSplit(o, dev, r, ss[..k + 1], k);
    assert ss[..k + 1][..k] == ss[..k];
    assert ss[..k + 1][k..] == [ss[k]];
  }

  /** A plan started on a good run stops at its first failing step: every
      step is issued after the run of the steps before it, nothing follows a
      failed step, and the plan succeeds iff every step succeeds. */
  lemma StopsAtFirstFailure(o: Oracle, dev: bv32, log: seq<Txn>, ss: seq<Step>, k: nat)
    requires k < |ss|
    ensures var before := RunSteps(o, dev, Run(log, Success), ss[..k]);
      var after := RunSteps(o, dev, Run(log, Success), ss[..k + 1]);
      && (before.st.Success? ==> after == StepRun(o, dev, before.log, ss[k]))
      && (before.st.Err? ==> after == before)
      && (after.st.Err? ==> RunSteps(o, dev, Run(log, Success), ss) == after)
  {
    var r := Run(log, Success);
    RunStepsAdvance(o, dev, r, ss, k);
    var after := RunSteps(o, dev, r, ss[..k + 1]);
    RunStepsSplit(o, dev, r, ss, k + 1);
    if after.st.Err? {
      RunStepsAfterFailure(o, dev, after, ss[k + 1..]);
    }
  }

  /** A plan started on a good run succeeds iff each of its steps, issued
      after the run of the steps before it, succeeds. */
  lemma {:induction false} SucceedsIffEveryStep(o: Oracle, dev: bv32, r: Run, ss: seq<Step>)
    requires r.st.Success?
    ensures RunSteps(o, dev, r, ss).st.Success?
      <==> forall k | 0 <= k < |ss| :: StepRun(o, dev, RunSteps(o, dev, r, ss[..k]).log, ss[k]).st.Success?
    decreases |ss|
  {
    if ss != [] {
      var s0 := StepRun(o, dev, r.log, ss[0]);
      assert ss[..0] == [];
      if s0.st.Err? {
        RunStepsAfterFailure(o, dev, s0, ss[1..]);
      } else {
        SucceedsIffEveryStep(o, dev, s0, ss[1..]);
        forall k | 1 <= k < |ss|
          ensures RunSteps(o, dev, r, ss[..k]) == RunSteps(o, dev, s0, ss[1..][..k - 1])
        {
          assert ss[..k][0] == ss[0] && ss[..k][1..] == ss[1..][..k - 1];
        }
        assert forall k | 1 <= k < |ss| :: ss[1..][k - 1] == ss[k];
      }
    }
  }

  // ---------------------------------------------------------------------
  // The driver calls
  // ---------------------------------------------------------------------

  /** `asic_pwm_sync`. */
  method Sync(bus: Asic) returns (st: State)
    requires bus.Ready()
    modifies bus`log, bus`wire
    ensures bus.Ready()
    ensures Performed(bus.log, old(bus.log), SyncSpec(bus.oracle, bus.address, |old(bus.log)|), st)
  {
    var data: Word;
    // `data` is uninitialised in the source; a failed read leaves it unused.
    st, data := bus.Read(REG_PWM_CONFIG, 0);
    if st.Err? {
      return st;
    }
    data := data | PWM_SYNC;
    st := bus.Write(REG_PWM_CONFIG, data);
  }

  /** `asic_pwm_short_circuit_protection_control`. */
  method ShortCircuitProtectionControl(bus: Asic, enable: bool, filter: Word) returns (st: State)
    requires bus.Ready()
    modifies bus`log, bus`wire
    ensures bus.Ready()
    ensures Performed(bus.log, old(bus.log), ShortConfigSpec(bus.oracle, bus.address, |old(bus.log)|, enable, filter), st)
  {
    var data: Word := if enable then 0x0000 else DISABLE_SC_PROTECTION;
    data := data | (filter & SC_MASK);
    st := bus.Write(REG_SHORT_CONFIG, data);
  }

  /** `asic_pwm_short_circuit_clear`. */
  method ShortCircuitClear(bus: Asic) returns (st: State)
    requires bus.Ready()
    modifies bus`log, bus`wire
    ensures bus.Ready()
    ensures Performed(bus.log, old(bus.log), ShortClearSpec(bus.oracle, bus.address, |old(bus.log)|), st)
  {
    st := bus.Write(REG_SHORT_DETECT, CLEAR_SHORTS);
  }

  /** `asic_pwm_short_circuit_get`: `shorts` is the caller's variable. */
  method ShortCircuitGet(bus: Asic, shorts: Word) returns (st: State, out: Word)
    requires bus.Ready()
    modifies bus`log, bus`wire
    ensures bus.Ready()
    ensures Performed(bus.log, old(bus.log), ShortGetSpec(bus.oracle, bus.address, |old(bus.log)|), st)
    ensures out == if st.Success? then ReadValue(bus.oracle, |old(bus.log)|) else shorts
  {
    st, out := bus.Read(REG_SHORT_DETECT, shorts);
  }

  /** `asic_pwm_delay_set`. */
  method DelaySet(bus: Asic, delay: Word, channel: Word, sync: bool) returns (st: State)
    requires bus.Ready()
    modifies bus`log, bus`wire
    ensures bus.Ready()
    ensures Run(bus.log, st)
      == WriteThenSync(bus.oracle, bus.address, old(bus.log), ChannelReg(REG_PWM0_DELAY, channel), delay, sync)
  {
    var address := ChannelReg(REG_PWM0_DELAY, channel);
    st := bus.Write(address, delay);
    if sync {
      var _ := Sync(bus);
    }
  }

  /** `asic_pwm_duty_set`. */
  method DutySet(bus: Asic, duty: Word, channel: Word, sync: bool) returns (st: State)
    requires bus.Ready()
    modifies bus`log, bus`wire
    ensures bus.Ready()
    ensures Run(bus.log, st)
      == WriteThenSync(bus.oracle, bus.address, old(bus.log), ChannelReg(REG_PWM0_DUTY, channel), duty, sync)
  {
    var address := ChannelReg(REG_PWM0_DUTY, channel);
    st := bus.Write(address, duty);
    if sync {
      var _ := Sync(bus);
    }
  }

  /** `asic_pwm_set_highz`. */
  method SetHighz(bus: Asic, enableHighz: bool) returns (st: State)
    requires bus.Ready()
    modifies bus`log, bus`wire
    ensures bus.Ready()
    ensures Run(bus.log, st) == WriteThenSync(bus.oracle, bus.address, old(bus.log), REG_PWM_OE, HighZWord(enableHighz), true)
  {
    var highzState: Word := if enableHighz then 0x0000 else 0xFFFF;
    st := bus.Write(REG_PWM_OE, highzState);
    var _ := Sync(bus);
  }

  /** `asic_pwm_enable`. */
  method Enable(bus: Asic, enablePwm: bool) returns (st: State)
    requires bus.Ready()
    modifies bus`log, bus`wire
    ensures bus.Ready()
    ensures Run(bus.log, st) == WriteThenSync(bus.oracle, bus.address, old(bus.log), REG_PWM_EN, OnOffWord(enablePwm), true)
  {
    var outputState: Word := if enablePwm then 0xFFFF else 0x0000;
    st := bus.Write(REG_PWM_EN, outputState);
    var _ := Sync(bus);
  }

  /** `asic_pwm_set_config`. */
  method SetConfig(bus: Asic, linear: bool, fromCentre: bool) returns (st: State)
    requires bus.Ready()
    modifies bus`log, bus`wire
    ensures bus.Ready()
    ensures Run(bus.log, st)
      == WriteThenSync(bus.oracle, bus.address, old(bus.log), REG_PWM_CONFIG, ConfigWord(linear, fromCentre), true)
  {
    var data: Word := DITHER_SEED_COMMIT | (DITHER_SEED_UPPER << 2) | DITHER_SEED_LOWER;
    if !linear {
      data := data | LINEAR_MODE_DISABLE;
    }
    if fromCentre {
      data := data | COUNT_FROM_CENTRE_ENABLE;
    }
    st := bus.Write(REG_PWM_CONFIG, data);
    var _ := Sync(bus);
  }

  /** `asic_pwm_dither`. */
  method Dither(bus: Asic, enableDither: bool) returns (st: State)
    requires bus.Ready()
    modifies bus`log, bus`wire
    ensures bus.Ready()
    ensures Run(bus.log, st)
      == WriteThenSync(bus.oracle, bus.address, old(bus.log), REG_asic_pwm_dither, OnOffWord(enableDither), true)
  {
    var data: Word := if enableDither then 0xFFFF else 0x0000;
    st := bus.Write(REG_asic_pwm_dither, data);
    var _ := Sync(bus);
  }

  /** One call of `asic_pwm_init`'s chain, made with the arguments the step
      carries. */
  method Perform(bus: Asic, s: Step) returns (st: State)
    requires bus.Ready()
    modifies bus`log, bus`wire
    ensures bus.Ready()
    ensures Run(bus.log, st) == StepRun(bus.oracle, bus.address, old(bus.log), s)
  {
    match s
    case ShortConfig(enable, filter) => st := ShortCircuitProtectionControl(bus, enable, filter);
    case ShortClear => st := ShortCircuitClear(bus);
    case HighZ(b) => st := SetHighz(bus, b);
    case Config(linear, fromCentre) => st := SetConfig(bus, linear, fromCentre);
    case DitherStep(b) => st := Dither(bus, b);
    case EnableStep(b) => st := Enable(bus, b);
  }

  /** `asic_pwm_init`: the six calls of its `||` chain, in order, returning
      at the first one that fails. */
  method Init(bus: Asic, enableSc: bool, scFilter: bv8, linear: bool, dither: bool, fromCentre: bool)
    returns (st: State)
    requires bus.Ready()
    modifies bus`log, bus`wire
    ensures bus.Ready()
    ensures Run(bus.log, st)
      == RunSteps(bus.oracle, bus.address, Run(old(bus.log), Success), InitPlan(enableSc, scFilter, linear, dither, fromCentre))
  {
    ghost var o, dev := bus.oracle, bus.address;
    var plan := InitPlan(enableSc, scFilter, linear, dither, fromCentre);
    ghost var goal := RunSteps(o, dev, Run(bus.log, Success), plan);
    assert plan[0..] == plan;
    var k := 0;
    while k < |plan|
      invariant k <= |plan|
      invariant bus.Ready() && bus.oracle == o && bus.address == dev
      invariant goal == RunSteps(o, dev, Run(bus.log, Success), plan[k..])
    {
      ghost var log := bus.log;
      st := Perform(bus, plan[k]);
      Advance(o, dev, log, plan, k, Run(bus.log, st));
      if st.Err? {
        return Err;
      }
      k := k + 1;
    }
    return Success;
  }

  /** The bookkeeping of `Init`: once step `k` of the plan, started on a good
      run after `log`, has produced `r`, the rest of the plan continues from
      `r`, and a failure is final. */
  lemma Advance(o: Oracle, dev: bv32, log: seq<Txn>, plan: seq<Step>, k: nat, r: Run)
    requires k < |plan|
    requires r == StepRun(o, dev, log, plan[k])
    ensures RunSteps(o, dev, Run(log, Success), plan[k..]) == RunSteps(o, dev, r, plan[k + 1..])
    ensures r.st.Err? ==> RunSteps(o, dev, r, plan[k + 1..]) == r
  {
    assert plan[k..][0] == plan[k] && plan[k..][1..] == plan[k + 1..];
    if r.st.Err? {
      RunStepsAfterFailure(o, dev, r, plan[k + 1..]);
    }
  }
}
