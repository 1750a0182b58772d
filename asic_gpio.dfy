/** The GPIO block (`asic_gpio.c`): four lines whose output enable, output
    value and input value are plain registers, and two registers that pack a
    4-bit field per line (the output function, and the PWM channel a line
    shows). */
module AsicGpio {
  import opened AsicCommon
  import opened AsicRegs
  import opened AsicSpi

  /** `GpioOutSel`: output-function codes 0..0xF. */
  type GpioOutSel = s: Word | s <= 0xF

  const kGPIOOutsel_GPIO: GpioOutSel := 0x0

  /** `GpioChanReg`: one bit per line. */
  const kGPIO_None: Word := 0x00
  const kGPIO_All: Word := 0x0F

  /** The 4-bit field of line `k`: bits 4k+3..4k. */
  function Nibble(w: Word, k: bv8): Word
    requires k < 4
  {
    if k == 0 then w & 0xF
    else if k == 1 then (w >> 4) & 0xF
    else if k == 2 then (w >> 8) & 0xF
    else w >> 12
  }

  /** `(uint16_t)0xf << (4 * ch)`: the shift happens in `int` and the result
      is truncated to 16 bits, so for 4 <= ch <= 6 the mask is zero. (For
      ch >= 7 the C shift overflows `int`.) */
  function ChannelMask(ch: bv8): Word
    requires ch < 7
  {
    Low16(0xF << (4 * ch))
  }

  /** `((uint16_t)v & 0xf) << (4 * ch)`, truncated to 16 bits. */
  function ShiftedField(v: Word, ch: bv8): Word
    requires ch < 7
  {
    Low16(((v & 0xF) as bv32) << (4 * ch))
  }

  /** `data &= ~mask; data |= shifted;`. */
  function MaskedUpdate(data: Word, ch: bv8, v: Word): Word
    requires ch < 7
  {
    (data & !ChannelMask(ch)) | ShiftedField(v, ch)
  }

  /** The intended update of a packed register, line by line: the field of a
      line 0..3 becomes `v & 0xF`; a line 4..6 has no field. */
  function SetField(w: Word, ch: bv8, v: Word): Word
    requires ch < 7
  {
    if ch == 0 then (w & 0xFFF0) | (v & 0xF)
    else if ch == 1 then (w & 0xFF0F) | ((v & 0xF) << 4)
    else if ch == 2 then (w & 0xF0FF) | ((v & 0xF) << 8)
    else if ch == 3 then (w & 0x0FFF) | ((v & 0xF) << 12)
    else w
  }

  /** The masked update, with its `int` shifts truncated to 16 bits, is the
      intended update for every line 0..6. */
  lemma MaskedUpdateIsSetField(data: Word, ch: bv8, v: Word)
    requires ch < 7
    ensures MaskedUpdate(data, ch, v) == SetField(data, ch, v)
  {
    if ch == 0 {
    } else if ch == 1 {
    } else if ch == 2 {
    } else if ch == 3 {
    } else if ch == 4 {
    } else if ch == 5 {
    } else {
    }
  }

  /** Only the addressed field changes: after the update, the field of line
      `ch` (if it is 0..3) is `v & 0xF` and every other field is unchanged. */
  lemma SetFieldNibble(w: Word, ch: bv8, v: Word, k: bv8)
    requires ch < 7 && k < 4
    ensures Nibble(SetField(w, ch, v), k) == if k == ch then v & 0xF else Nibble(w, k)
  {
    if ch == 0 {
    } else if ch == 1 {
    } else if ch == 2 {
    } else if ch == 3 {
    }
  }

  // ---------------------------------------------------------------------
  // Specifications
  // ---------------------------------------------------------------------

  function OutputEnableSpec(o: Oracle, dev: bv32, i: nat, mask: Word): Outcome {
    WriteSpec(o, dev, i, REG_GPIO_OE, mask)
  }

  function WriteOutSpec(o: Oracle, dev: bv32, i: nat, value: Word): Outcome {
    WriteSpec(o, dev, i, REG_GPIO_OUT, value)
  }

  function ReadInSpec(o: Oracle, dev: bv32, i: nat): Outcome {
    ReadSpec(o, dev, i, REG_GPIO_IN)
  }

  function OutputSelectSpec(o: Oracle, dev: bv32, i: nat, ch: bv8, sel: GpioOutSel): Outcome {
    if ch > 3 then Outcome([], Err)
    else Rmw(o, dev, i, REG_GPIO_OUTSEL, SetField(ReadValue(o, i), ch, sel))
  }

  function PwmMuxSelectSpec(o: Oracle, dev: bv32, i: nat, ch: bv8, pwm: Word): Outcome
    requires ch < 7
  {
    Rmw(o, dev, i, REG_PWM_GPIO_OUTSEL, SetField(ReadValue(o, i), ch, pwm))
  }

  /** Line `k` of the four, as the `uint8_t` loop counter holds it. */
  function Line(k: nat): (ch: bv8)
    requires k < 4
    ensures ch as nat == k
  {
    if k == 0 then 0 else if k == 1 then 1 else if k == 2 then 2 else 3
  }

  /** The log once the out-selects of lines `n`..3 of `asic_gpio_init` have
      been issued after `log`; each one is issued whatever the previous one
      returned. */
  function SelectFrom(o: Oracle, dev: bv32, log: seq<Txn>, n: nat): seq<Txn>
    requires n <= 4
    decreases 4 - n
  {
    if n == 4 then log
    else SelectFrom(o, dev, log + OutputSelectSpec(o, dev, |log|, Line(n), kGPIOOutsel_GPIO).txns, n + 1)
  }

  /** The log after `asic_gpio_init` has run after `log`: outputs driven low,
      every line selected as plain GPIO, all outputs enabled. */
  function InitLog(o: Oracle, dev: bv32, log: seq<Txn>): seq<Txn> {
    var cleared := log + WriteOutSpec(o, dev, |log|, kGPIO_None).txns;
    var selected := SelectFrom(o, dev, cleared, 0);
    selected + OutputEnableSpec(o, dev, |selected|, kGPIO_All).txns
  }

  // ---------------------------------------------------------------------
  // Properties
  // ---------------------------------------------------------------------

  /** A line above 3 is rejected before any transaction. */
  lemma OutputSelectRejects(o: Oracle, dev: bv32, i: nat, ch: bv8, sel: GpioOutSel)
    requires ch > 3
    ensures OutputSelectSpec(o, dev, i, ch, sel) == Outcome([], Err)
  {
  }

  /** For lines 0..3: a failed read is returned with no write; otherwise the
      word written has the line's field equal to the selection and every other
      field equal to the word read, and the write's status is returned. */
  lemma OutputSelectWrites(o: Oracle, dev: bv32, i: nat, ch: bv8, sel: GpioOutSel)
    requires ch <= 3
    ensures StatusAt(o, i).Err? ==> OutputSelectSpec(o, dev, i, ch, sel) == Outcome([ReadTx(dev, REG_GPIO_OUTSEL)], Err)
    ensures StatusAt(o, i).Success? ==>
      var r := OutputSelectSpec(o, dev, i, ch, sel);
      && |r.txns| == 2 && r.txns[0] == ReadTx(dev, REG_GPIO_OUTSEL)
      && r.txns[1].WriteTx? && r.txns[1].reg == REG_GPIO_OUTSEL
      && (forall k: bv8 :: k < 4 ==> Nibble(r.txns[1].data, k) == if k == ch then sel else Nibble(ReadValue(o, i), k))
      && r.st == StatusAt(o, i + 1)
  {
    var w := SetField(ReadValue(o, i), ch, sel);
    RmwShape(o, dev, i, REG_GPIO_OUTSEL, w);
    forall k: bv8 | k < 4
      ensures Nibble(w, k) == if k == ch then sel else Nibble(ReadValue(o, i), k)
    {
      SetFieldNibble(ReadValue(o, i), ch, sel, k);
    }
  }

  /** `asic_pwm_mux_select` has no range check: lines 0..3 replace only their
      field with `pwm & 0xF`, lines 4..6 rewrite the register unchanged. */
  lemma PwmMuxSelectWrites(o: Oracle, dev: bv32, i: nat, ch: bv8, pwm: Word)
    requires ch < 7
    ensures StatusAt(o, i).Err? ==> PwmMuxSelectSpec(o, dev, i, ch, pwm) == Outcome([ReadTx(dev, REG_PWM_GPIO_OUTSEL)], Err)
    ensures StatusAt(o, i).Success? ==>
      var r := PwmMuxSelectSpec(o, dev, i, ch, pwm);
      && |r.txns| == 2 && r.txns[0] == ReadTx(dev, REG_PWM_GPIO_OUTSEL)
      && r.txns[1].WriteTx? && r.txns[1].reg == REG_PWM_GPIO_OUTSEL
      && (forall k: bv8 :: k < 4 ==> Nibble(r.txns[1].data, k) == if k == ch then pwm & 0xF else Nibble(ReadValue(o, i), k))
      && (ch >= 4 ==> r.txns[1].data == ReadValue(o, i))
      && r.st == StatusAt(o, i + 1)
  {
    var w := SetField(ReadValue(o, i), ch, pwm);
    RmwShape(o, dev, i, REG_PWM_GPIO_OUTSEL, w);
    forall k: bv8 | k < 4
      ensures Nibble(w, k) == if k == ch then pwm & 0xF else Nibble(ReadValue(o, i), k)
    {
      SetFieldNibble(ReadValue(o, i), ch, pwm, k);
    }
  }

  /** The out-selects keep the log as a prefix and issue one or two
      transactions per line. */
  lemma {:induction false} SelectFromExtends(o: Oracle, dev: bv32, log: seq<Txn>, n: nat)
    requires n <= 4
    ensures var r := SelectFrom(o, dev, log, n);
      && |log| + (4 - n) <= |r| <= |log| + 2 * (4 - n)
      && r[..|log|] == log
    decreases 4 - n
  {
    if n < 4 {
      var log' := log + OutputSelectSpec(o, dev, |log|, Line(n), kGPIOOutsel_GPIO).txns;
      OutputSelectReadsOnce(o, dev, |log|, Line(n));
      SelectFromExtends(o, dev, log', n + 1);
      assert log'[..|log|] == log;
    }
  }

  /** Each remaining line's out-select reads the register once, whether or
      not the previous lines succeeded. */
  lemma {:induction false} SelectFromReadsEveryLine(o: Oracle, dev: bv32, log: seq<Txn>, n: nat)
    requires n <= 4
    ensures ReadsOf(SelectFrom(o, dev, log, n), dev, REG_GPIO_OUTSEL) == ReadsOf(log, dev, REG_GPIO_OUTSEL) + (4 - n)
    decreases 4 - n
  {
    if n < 4 {
      var step := OutputSelectSpec(o, dev, |log|, Line(n), kGPIOOutsel_GPIO).txns;
      OutputSelectReadsOnce(o, dev, |log|, Line(n));
      ReadsOfAppend(log, step, dev, REG_GPIO_OUTSEL);
      SelectFromReadsEveryLine(o, dev, log + step, n + 1);
    }
  }

  /** One out-select of a line 0..3 reads the register once and writes at
      most once. */
  lemma OutputSelectReadsOnce(o: Oracle, dev: bv32, i: nat, ch: bv8)
    ensures var ts := OutputSelectSpec(o, dev, i, ch, kGPIOOutsel_GPIO).txns;
      ch <= 3 ==> ReadsOf(ts, dev, REG_GPIO_OUTSEL) == 1 && 1 <= |ts| <= 2
  {
    if ch <= 3 {
      var w := SetField(ReadValue(o, i), ch, kGPIOOutsel_GPIO);
      RmwShape(o, dev, i, REG_GPIO_OUTSEL, w);
      var r := [ReadTx(dev, REG_GPIO_OUTSEL)];
      assert ReadsOf(r, dev, REG_GPIO_OUTSEL) == 1 by {
        assert r[..0] == [];
      }
      assert [ReadTx(dev, REG_GPIO_OUTSEL), WriteTx(dev, REG_GPIO_OUTSEL, w)][..1] == r;
    }
  }

  /** `asic_gpio_init` is best effort: whatever the link reports, it keeps
      the earlier log, drives the outputs low first, selects every one of the
      four lines, and enables all outputs last. */
  lemma InitIsBestEffort(o: Oracle, dev: bv32, log: seq<Txn>)
    ensures var r := InitLog(o, dev, log);
      && |log| + 6 <= |r| <= |log| + 10
      && r[..|log|] == log
      && r[|log|] == WriteTx(dev, REG_GPIO_OUT, kGPIO_None)
      && r[|r| - 1] == WriteTx(dev, REG_GPIO_OE, kGPIO_All)
      && ReadsOf(r, dev, REG_GPIO_OUTSEL) == ReadsOf(log, dev, REG_GPIO_OUTSEL) + 4
  {
    var first := WriteOutSpec(o, dev, |log|, kGPIO_None).txns;
    var cleared := log + first;
    var selected := SelectFrom(o, dev, cleared, 0);
    var last := OutputEnableSpec(o, dev, |selected|, kGPIO_All).txns;
    SelectFromExtends(o, dev, cleared, 0);
    SelectFromReadsEveryLine(o, dev, cleared, 0);
    ReadsOfAppend(log, first, dev, REG_GPIO_OUTSEL);
    ReadsOfAppend(selected, last, dev, REG_GPIO_OUTSEL);
    assert ReadsOf(first, dev, REG_GPIO_OUTSEL) == 0 by {
      assert first[..0] == [];
    }
    assert ReadsOf(last, dev, REG_GPIO_OUTSEL) == 0 by {
      assert last[..0] == [];
    }
    assert selected[..|cleared|][|log|] == cleared[|log|];
    assert (selected + last)[..|log|] == selected[..|cleared|][..|log|];
  }

  /** The values the `uint8_t` loop counter of `asic_gpio_init` takes. */
  function CounterAt(n: nat): (g: bv8)
    requires n <= 4
    ensures n < 4 ==> g == Line(n)
  {
    [0, 1, 2, 3, 4][n]
  }

  /** The counter leaves the loop after the fourth line and steps by one. */
  lemma CounterStep(n: nat)
    requires n <= 4
    ensures CounterAt(n) < 4 <==> n < 4
    ensures n < 4 ==> CounterAt(n) + 1 == CounterAt(n + 1)
  {
  }

  // ---------------------------------------------------------------------
  // The driver calls
  // ---------------------------------------------------------------------

  /** `asic_gpio_output_enable`: the mask is written as it is. */
  method OutputEnable(bus: Asic, mask: Word) returns (st: State)
    requires bus.Ready()
    modifies bus`log, bus`wire
    ensures bus.Ready()
    ensures Performed(bus.log, old(bus.log), OutputEnableSpec(bus.oracle, bus.address, |old(bus.log)|, mask), st)
  {
    st := bus.Write(REG_GPIO_OE, mask);
  }

  /** The read-modify-write shared by `asic_gpio_output_select` and
      `asic_pwm_mux_select`: read `reg`, replace the field of line `ch` with
      the masked update, write it back. */
  method UpdateField(bus: Asic, reg: RegId, ch: bv8, v: Word) returns (st: State)
    requires ch < 7
    requires bus.Ready()
    modifies bus`log, bus`wire
    ensures bus.Ready()
    ensures Performed(bus.log, old(bus.log), Rmw(bus.oracle, bus.address, |old(bus.log)|, reg, SetField(ReadValue(bus.oracle, |old(bus.log)|), ch, v)), st)
  {
    var data: Word;
    // `data` is uninitialised in the source; a failed read leaves it unused.
    st, data := bus.Read(reg, 0);
    if st.Err? {
      return st;
    }
    MaskedUpdateIsSetField(data, ch, v);
    data := MaskedUpdate(data, ch, v);
    st := bus.Write(reg, data);
  }

  /** `asic_gpio_output_select`. */
  method OutputSelect(bus: Asic, ch: bv8, sel: GpioOutSel) returns (st: State)
    requires bus.Ready()
    modifies bus`log, bus`wire
    ensures bus.Ready()
    ensures Performed(bus.log, old(bus.log), OutputSelectSpec(bus.oracle, bus.address, |old(bus.log)|, ch, sel), st)
  {
    if ch > 3 {
      return Err;
    }
    st := UpdateField(bus, REG_GPIO_OUTSEL, ch, sel);
  }

  /** `asic_gpio_write`. */
  method Write(bus: Asic, value: Word) returns (st: State)
    requires bus.Ready()
    modifies bus`log, bus`wire
    ensures bus.Ready()
    ensures Performed(bus.log, old(bus.log), WriteOutSpec(bus.oracle, bus.address, |old(bus.log)|, value), st)
  {
    st := bus.Write(REG_GPIO_OUT, value);
  }

  /** `asic_gpio_init`: results are discarded. */
  method Init(bus: Asic)
    requires bus.Ready()
    modifies bus`log, bus`wire
    ensures bus.Ready()
    ensures bus.log == InitLog(bus.oracle, bus.address, old(bus.log))
  {
    ghost var o, dev := bus.oracle, bus.address;
    var _ := Write(bus, kGPIO_None);
    ghost var cleared := bus.log;
    var gpio: bv8 := 0;
    ghost var n: nat := 0;
    while gpio < 4
      invariant n <= 4 && gpio == CounterAt(n)
      invariant bus.Ready() && bus.oracle == o && bus.address == dev
      invariant SelectFrom(o, dev, bus.log, n) == SelectFrom(o, dev, cleared, 0)
      decreases 4 - n
    {
      CounterStep(n);
      var _ := OutputSelect(bus, gpio, kGPIOOutsel_GPIO);
      gpio := gpio + 1;
      n := n + 1;
    }
    CounterStep(n);
    var _ := OutputEnable(bus, kGPIO_All);
  }

  /** `asic_gpio_read`: `data` is the caller's variable behind the pointer. */
  method Read(bus: Asic, data: Word) returns (st: State, out: Word)
    requires bus.Ready()
    modifies bus`log, bus`wire
    ensures bus.Ready()
    ensures Performed(bus.log, old(bus.log), ReadInSpec(bus.oracle, bus.address, |old(bus.log)|), st)
    ensures out == if st.Success? then ReadValue(bus.oracle, |old(bus.log)|) else data
  {
    st, out := bus.Read(REG_GPIO_IN, data);
  }

  /** `asic_pwm_mux_select`: no range check on the line. */
  method PwmMuxSelect(bus: Asic, ch: bv8, pwm: Word) returns (st: State)
    requires ch < 7
    requires bus.Ready()
    modifies bus`log, bus`wire
    ensures bus.Ready()
    ensures Performed(bus.log, old(bus.log), PwmMuxSelectSpec(bus.oracle, bus.address, |old(bus.log)|, ch, pwm), st)
  {
    st := UpdateField(bus, REG_PWM_GPIO_OUTSEL, ch, pwm);
  }
}
