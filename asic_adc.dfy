/** The ADC block (`asic_adc.c`): read-modify-write of the state register
    (channel field, sample enable, sync pulse), the result register, the
    load-sense timing, trim and channel select, the sync train of the
    load-sense hold, and the literal calibration tables written at start-up. */
module AsicAdc {
  import opened AsicCommon
  import opened AsicRegs
  import opened AsicSpi

  /** `ADCChannels`: the eight channels `kADCChannel_hv` .. `kADCChannel_TestHighGain`. */
  type AdcChannel = c: Word | c < 8

  const CHANNEL_MASK: Word := 0x0007
  const ADC_EN: Word := 0x0008      // 1 << 3
  const ADC_DONE: Word := 0x0010
  const ADC_SYNC: Word := 0x0040    // 1 << 6
  const BYTE_MASK: Word := 0x00FF

  const ADC_CLK_DIV: Word := 0x0006
  const CHARGE_TIME: Word := 20
  const MEASURE_TIME: Word := 20
  const CAP_TRIM: Word := 9

  /** Bit `k` of a register word. */
  predicate Bit(w: Word, k: nat)
    requires k < 16
  {
    (w >> k) & 1 == 1
  }

  // ---------------------------------------------------------------------
  // State register words
  // ---------------------------------------------------------------------

  /** The channel field of the state register: bits 2..0. */
  function ChannelOf(w: Word): (c: AdcChannel) {
    w & CHANNEL_MASK
  }

  /** `data &= ~channel_mask; data |= channel;`. */
  function WithChannel(data: Word, c: AdcChannel): Word {
    (data & !CHANNEL_MASK) | c
  }

  /** The channel field of the new word is `c`. */
  lemma WithChannelSelects(data: Word, c: AdcChannel)
    ensures ChannelOf(WithChannel(data, c)) == c
  {
  }

  /** Bits 15..3 of the new word are those of the word read. */
  lemma WithChannelKeeps(data: Word, c: AdcChannel)
    ensures WithChannel(data, c) & 0xFFF8 == data & 0xFFF8
  {
  }

  /** Selecting the channel already selected leaves the word as it was. */
  lemma WithChannelSame(data: Word)
    ensures WithChannel(data, ChannelOf(data)) == data
  {
  }

  /** `data |= flag`. */
  function WithFlag(data: Word, flag: Word): Word {
    data | flag
  }

  /** The flag's bits are set in the new word. */
  lemma WithFlagSets(data: Word, flag: Word)
    ensures WithFlag(data, flag) & flag == flag
  {
  }

  /** Every bit outside the flag keeps its value. */
  lemma WithFlagKeeps(data: Word, flag: Word)
    ensures WithFlag(data, flag) & !flag == data & !flag
  {
  }

  /** Setting a flag already set leaves the word as it was. */
  lemma WithFlagSame(data: Word, flag: Word)
    requires data & flag == flag
    ensures WithFlag(data, flag) == data
  {
  }

  // ---------------------------------------------------------------------
  // Load-sense words
  // ---------------------------------------------------------------------

  /** The charge time: the low byte of the timing register. */
  function ChargeOf(w: Word): (c: Word)
    ensures c < 0x100
  {
    w & BYTE_MASK
  }

  /** The measure time: the high byte of the timing register. */
  function MeasureOf(w: Word): (m: Word)
    ensures m < 0x100
  {
    (w >> 8) & BYTE_MASK
  }

  /** `(measure_time << 8) | charge_time`, truncated to 16 bits. */
  function TimingWord(charge: Word, measure: Word): Word {
    (measure << 8) | charge
  }

  /** The charge field of a timing word is the charge time's low byte. */
  lemma TimingWordCharge(charge: Word, measure: Word)
    ensures ChargeOf(TimingWord(charge, measure)) == charge & BYTE_MASK
  {
  }

  /** The truncation of the packing: the charge time's own high byte lands
      in the measure field. */
  lemma TimingWordMeasure(charge: Word, measure: Word)
    ensures MeasureOf(TimingWord(charge, measure)) == (measure | (charge >> 8)) & BYTE_MASK
  {
  }

  /** Times below 256 are recovered exactly by the decoding of
      `load_sense_hold`. */
  lemma TimingWordRoundTrip(charge: Word, measure: Word)
    requires charge < 0x100 && measure < 0x100
    ensures ChargeOf(TimingWord(charge, measure)) == charge
    ensures MeasureOf(TimingWord(charge, measure)) == measure
  {
    TimingWordCharge(charge, measure);
    TimingWordMeasure(charge, measure);
  }

  /** Every timing word is the packing of its two fields. */
  lemma TimingWordOfFields(w: Word)
    ensures TimingWord(ChargeOf(w), MeasureOf(w)) == w
  {
  }

  /** The number of sync pulses `load_sense_hold` sends for a timing word:
      charge plus measure plus three. Both fields are bytes, so the count
      is at most 513 and the source's 16-bit sum never wraps. */
  function PulseCount(w: Word): (n: nat)
    ensures 3 <= n <= 513
  {
    ChargeOf(w) as nat + MeasureOf(w) as nat + 3
  }

  /** The default timing of 20 charge and 20 measure pulses is the word
      0x1414 and gives a train of 43 syncs. */
  lemma DefaultHoldIs43Pulses()
    ensures TimingWord(CHARGE_TIME, MEASURE_TIME) == 0x1414
    ensures PulseCount(TimingWord(CHARGE_TIME, MEASURE_TIME)) == 43
  {
  }

  /** The capacitance trim: accepted for 2..9 pF, stored as the capacitance
      minus two. */
  function TrimCode(pF: Word): (r: Option<Word>)
    ensures r.Some? <==> 2 <= pF <= 9
    ensures r.Some? ==> r.value <= 7 && r.value as int == pF as int - 2
  {
    if pF < 2 || pF > 9 then None else Some(pF - 2)
  }

  /** `1 << channel`: one load path at a time. */
  function LoadSenseWord(c: AdcChannel): (w: Word)
    ensures w != 0 && w & (w - 1) == 0
    ensures forall k: nat | k < 16 :: Bit(w, k) <==> k == c as nat
  {
    var w: Word := 1 << c;
    assert forall k: nat | k < 16 :: Bit(w, k) <==> k == c as nat by {
      forall k: nat | k < 16
        ensures Bit(w, k) <==> k == c as nat
      {
        OneHotBit(c, k);
      }
    }
    w
  }

  lemma OneHotBit(c: AdcChannel, k: nat)
    requires k < 16
    ensures Bit(1 << c, k) <==> k == c as nat
  {
    if c == 0 {
    } else if c == 1 {
    } else if c == 2 {
    } else if c == 3 {
    } else if c == 4 {
    } else if c == 5 {
    } else if c == 6 {
    } else {
    }
  }

  // ---------------------------------------------------------------------
  // Calibration tables
  // ---------------------------------------------------------------------

  /** The start and stop fields (bits 5..0 and 11..6) of a pulse-timing word. */
  datatype Pulse = Pulse(start: Word, stop: Word)

  function PulseWord(p: Pulse): Word {
    p.start | (p.stop << 6)
  }

  function PulseOf(w: Word): (p: Pulse)
    ensures p.start < 64 && p.stop < 64
  {
    Pulse(w & 0x3F, (w >> 6) & 0x3F)
  }

  /** A pulse whose fields fit in six bits is recovered from its word. */
  lemma PulseRoundTrip(p: Pulse)
    requires p.start < 64 && p.stop < 64
    ensures PulseOf(PulseWord(p)) == p
    ensures PulseWord(p) < 0x1000
  {
  }

  /** `init_tbit`: the bit-timing template. */
  function TbitTable(): seq<RegWrite> {
    [
      RegWrite(REG_ADC_TBIT_CONFIG, 0xAAAA),
      RegWrite(REG_ADC_TBIT_START_TIMES, 0x00AA)
    ]
  }

  /** `init_tconf`: the pulse-timing template and the bit start, in the order
      written. The third pair is documented as the "short IP" pulse but is
      written to the SMALL registers a second time. */
  function TconfTable(): seq<RegWrite> {
    [
      RegWrite(REG_ADC_PULSE_START_STOP1, 0x07D0),
      RegWrite(REG_ADC_PULSE_START_STOP2, 0x1476),
      RegWrite(REG_ADC_PULSE_SMALL_START_STOP1, 0x0810),
      RegWrite(REG_ADC_PULSE_SMALL_START_STOP2, 0x0D24),
      RegWrite(REG_ADC_PULSE_SMALL_START_STOP1, 0x0840),
      RegWrite(REG_ADC_PULSE_SMALL_START_STOP2, 0x0000),
      RegWrite(REG_ADC_PULSE_AZ1_START_STOP1, 0x0880),
      RegWrite(REG_ADC_PULSE_AZ1_START_STOP2, 0x0000),
      RegWrite(REG_ADC_PULSE_AZ2_START_STOP1, 0x08C0),
      RegWrite(REG_ADC_PULSE_AZ2_START_STOP2, 0x0000),
      RegWrite(REG_ADC_PULSE_RST_BIT_START_STOP1, 0x0080),
      RegWrite(REG_ADC_PULSE_RST_BIT_START_STOP2, 0x0000),
      RegWrite(REG_ADC_PULSE_RST_HALF_START_STOP1, 0x07D0),
      RegWrite(REG_ADC_PULSE_RST_HALF_START_STOP2, 0x0CE4),
      RegWrite(REG_ADC_BIT_START, 0x0035)
    ]
  }

  /** The start/stop fields the comments of `init_tconf` give for its fourteen
      pulse words, in table order. */
  function TconfDocumented(): seq<Pulse> {
    [
      Pulse(16, 31), Pulse(36, 51),
      Pulse(16, 32), Pulse(36, 52),
      Pulse(0, 33), Pulse(0, 0),
      Pulse(0, 34), Pulse(0, 0),
      Pulse(0, 35), Pulse(0, 0),
      Pulse(0, 2), Pulse(0, 0),
      Pulse(16, 31), Pulse(36, 51)
    ]
  }

  /** The bit-timing words have every 4-bit field the comments give as 10. */
  lemma TbitMatchesComments()
    ensures forall k: nat | k < 16 :: Bit(TbitTable()[0].value, k) <==> k % 2 == 1
    ensures forall k: nat | k < 16 :: Bit(TbitTable()[1].value, k) <==> k % 2 == 1 && k < 8
  {
    forall k: nat | k < 16
      ensures Bit(0xAAAA, k) <==> k % 2 == 1
      ensures Bit(0x00AA, k) <==> k % 2 == 1 && k < 8
    {
      TbitBit(k);
    }
  }

  lemma TbitBit(k: nat)
    requires k < 16
    ensures Bit(0xAAAA, k) <==> k % 2 == 1
    ensures Bit(0x00AA, k) <==> k % 2 == 1 && k < 8
  {
    if k < 4 {
    } else if k < 8 {
    } else if k < 12 {
    } else {
    }
  }

  /** `init_tbit` stops after a failed first write; otherwise both words
      are written and the second write's status is the result. */
  lemma TbitChain(o: Oracle, dev: bv32, log: seq<Txn>)
    ensures var w0, w1 := WriteTx(dev, REG_ADC_TBIT_CONFIG, 0xAAAA), WriteTx(dev, REG_ADC_TBIT_START_TIMES, 0x00AA);
      ChainWrites(o, dev, Run(log, Success), TbitTable()) ==
        if StatusAt(o, |log|).Err? then Run(log + [w0], Err) else Run(log + [w0, w1], StatusAt(o, |log| + 1))
  {
    var t := TbitTable();
    assert t == [t[0]] + [t[1]];
    ChainOneWrite(o, dev, log, t[0]);
    ChainWritesThen(o, dev, log, [t[0]], [t[1]], ChainWrites(o, dev, Run(log, Success), [t[0]]));
    if StatusAt(o, |log|).Success? {
      var log' := log + [WriteTx(dev, REG_ADC_TBIT_CONFIG, 0xAAAA)];
      ChainOneWrite(o, dev, log', t[1]);
      assert log' + [WriteTx(dev, REG_ADC_TBIT_START_TIMES, 0x00AA)]
          == log + [WriteTx(dev, REG_ADC_TBIT_CONFIG, 0xAAAA), WriteTx(dev, REG_ADC_TBIT_START_TIMES, 0x00AA)];
    }
  }

  /** Every pulse word of `init_tconf` encodes the start and stop of its
      comment, except the second (0x1476), which decodes to start 54 and
      stop 17 and sets bit 12, outside both fields; the bit start is 53. */
  lemma TconfMatchesComments()
    ensures |TconfTable()| == |TconfDocumented()| + 1
    ensures forall k | 0 <= k < |TconfDocumented()| && k != 1 ::
      TconfTable()[k].value == PulseWord(TconfDocumented()[k])
    ensures PulseOf(TconfTable()[1].value) == Pulse(54, 17) != TconfDocumented()[1]
    ensures TconfTable()[1].value & 0xF000 == 0x1000
    ensures TconfTable()[|TconfTable()| - 1] == RegWrite(REG_ADC_BIT_START, 53)
  {
  }

  /** Every write of `asic_adc_init`, in order: clock divider, bit timing,
      load-sense timing, pulse timing and bit start, capacitance trim. */
  function InitTable(): seq<RegWrite> {
    [RegWrite(REG_ADC_CLK, ADC_CLK_DIV)]
      + (TbitTable()
      + ([RegWrite(REG_ADC_LOAD_SENSE_CONFIG, TimingWord(CHARGE_TIME, MEASURE_TIME))]
      + (TconfTable()
      + [RegWrite(REG_ANA_CONFIG_LOAD_SENSE, TrimCode(CAP_TRIM).value)])))
  }

  /** The start-up table: clock divider 6, 0xAAAA then 0x00AA, the timing
      word 0x1414, the pulse table ending with bit start 0x35, trim code 7. */
  lemma InitTableWords()
    ensures var t := InitTable();
      && |t| == 20
      && t[0] == RegWrite(REG_ADC_CLK, 6)
      && t[1] == RegWrite(REG_ADC_TBIT_CONFIG, 0xAAAA)
      && t[2] == RegWrite(REG_ADC_TBIT_START_TIMES, 0x00AA)
      && t[3] == RegWrite(REG_ADC_LOAD_SENSE_CONFIG, 0x1414)
      && t[4..19] == TconfTable()
      && t[18] == RegWrite(REG_ADC_BIT_START, 0x35)
      && t[19] == RegWrite(REG_ANA_CONFIG_LOAD_SENSE, 7)
  {
  }

  /** `asic_adc_init` issues the start-up table up to and including its
      first failing write, and succeeds iff none of the twenty writes fails. */
  lemma InitStopsAtFirstFailure(o: Oracle, dev: bv32, log: seq<Txn>)
    ensures var k := FirstFailure(o, |log|, 20);
      var r := ChainWrites(o, dev, Run(log, Success), InitTable());
      && r.log == log + Writes(dev, InitTable()[..if k == 20 then 20 else k + 1])
      && (r.st.Success? <==> k == 20)
  {
    InitTableWords();
    ChainWritesIssues(o, dev, log, InitTable());
  }

  // ---------------------------------------------------------------------
  // Specifications
  // ---------------------------------------------------------------------

  function StartSampleSpec(o: Oracle, dev: bv32, i: nat): Outcome {
    Rmw(o, dev, i, REG_ADC_STATE, WithFlag(ReadValue(o, i), ADC_EN))
  }

  function SyncSpec(o: Oracle, dev: bv32, i: nat): Outcome {
    Rmw(o, dev, i, REG_ADC_STATE, WithFlag(ReadValue(o, i), ADC_SYNC))
  }

  function SetChannelSpec(o: Oracle, dev: bv32, i: nat, c: AdcChannel): Outcome {
    Rmw(o, dev, i, REG_ADC_STATE, WithChannel(ReadValue(o, i), c))
  }

  function GetValueSpec(o: Oracle, dev: bv32, i: nat): Outcome {
    ReadSpec(o, dev, i, REG_ADC_VAL)
  }

  function LoadSenseSelSpec(o: Oracle, dev: bv32, i: nat, c: AdcChannel): Outcome {
    WriteSpec(o, dev, i, REG_ADC_LOAD_SENSE, LoadSenseWord(c))
  }

  function TimingSpec(o: Oracle, dev: bv32, i: nat, charge: Word, measure: Word): Outcome {
    WriteSpec(o, dev, i, REG_ADC_LOAD_SENSE_CONFIG, TimingWord(charge, measure))
  }

  function LoadSenseConfigSpec(o: Oracle, dev: bv32, i: nat, pF: Word): Outcome {
    match TrimCode(pF)
    case None => Outcome([], Err)
    case Some(code) => WriteSpec(o, dev, i, REG_ANA_CONFIG_LOAD_SENSE, code)
  }

  /** `asic_adc_ready`: `data` starts at 0 and a failed read leaves it so. */
  function ReadyResult(o: Oracle, i: nat): bool {
    var data: Word := if StatusAt(o, i).Success? then ReadValue(o, i) else 0;
    data & ADC_DONE != 0
  }

  /** The ADC is reported ready iff the read succeeds and shows the done bit;
      a failed read reads as "not ready". */
  lemma ReadyIffDone(o: Oracle, i: nat)
    ensures ReadyResult(o, i) <==> StatusAt(o, i).Success? && Bit(ReadValue(o, i), 4)
  {
  }

  /** A start-sample issues no write after a failed read; otherwise it
      writes back the word read with the enable bit (bit 3) set. */
  lemma StartSampleWrites(o: Oracle, dev: bv32, i: nat)
    ensures StatusAt(o, i).Err? ==> StartSampleSpec(o, dev, i) == Outcome([ReadTx(dev, REG_ADC_STATE)], Err)
    ensures StatusAt(o, i).Success? ==>
      StartSampleSpec(o, dev, i) ==
        Outcome([ReadTx(dev, REG_ADC_STATE), WriteTx(dev, REG_ADC_STATE, ReadValue(o, i) | 0x0008)], StatusAt(o, i + 1))
  {
    RmwShape(o, dev, i, REG_ADC_STATE, WithFlag(ReadValue(o, i), ADC_EN));
  }

  /** A sync issues no write after a failed read; otherwise it writes back
      the word read with the sync bit (bit 6) set. */
  lemma SyncWrites(o: Oracle, dev: bv32, i: nat)
    ensures StatusAt(o, i).Err? ==> SyncSpec(o, dev, i) == Outcome([ReadTx(dev, REG_ADC_STATE)], Err)
    ensures StatusAt(o, i).Success? ==>
      SyncSpec(o, dev, i) ==
        Outcome([ReadTx(dev, REG_ADC_STATE), WriteTx(dev, REG_ADC_STATE, ReadValue(o, i) | 0x0040)], StatusAt(o, i + 1))
  {
    RmwShape(o, dev, i, REG_ADC_STATE, WithFlag(ReadValue(o, i), ADC_SYNC));
  }

  /** After a successful read, `set_channel` writes a word whose low three
      bits are the channel and whose bits 15..3 are the word read. */
  lemma SetChannelWrites(o: Oracle, dev: bv32, i: nat, c: AdcChannel)
    ensures StatusAt(o, i).Err? ==> SetChannelSpec(o, dev, i, c) == Outcome([ReadTx(dev, REG_ADC_STATE)], Err)
    ensures StatusAt(o, i).Success? ==>
      var r := SetChannelSpec(o, dev, i, c);
      && |r.txns| == 2 && r.txns[0] == ReadTx(dev, REG_ADC_STATE)
      && r.txns[1].WriteTx? && r.txns[1].reg == REG_ADC_STATE
      && ChannelOf(r.txns[1].data) == c
      && r.txns[1].data & 0xFFF8 == ReadValue(o, i) & 0xFFF8
      && r.st == StatusAt(o, i + 1)
  {
    RmwShape(o, dev, i, REG_ADC_STATE, WithChannel(ReadValue(o, i), c));
    WithChannelSelects(ReadValue(o, i), c);
    WithChannelKeeps(ReadValue(o, i), c);
  }

  /** An out-of-range capacitance is rejected with no transaction; 9 pF is
      written as the trim code 7. */
  lemma LoadSenseConfigRange(o: Oracle, dev: bv32, i: nat, pF: Word)
    ensures LoadSenseConfigSpec(o, dev, i, pF).txns == [] <==> pF < 2 || pF > 9
    ensures pF < 2 || pF > 9 ==> LoadSenseConfigSpec(o, dev, i, pF).st == Err
    ensures 2 <= pF <= 9 ==>
      LoadSenseConfigSpec(o, dev, i, pF) == Outcome([WriteTx(dev, REG_ANA_CONFIG_LOAD_SENSE, pF - 2)], StatusAt(o, i))
    ensures LoadSenseConfigSpec(o, dev, i, 9).txns == [WriteTx(dev, REG_ANA_CONFIG_LOAD_SENSE, 7)]
  {
  }

  /** The train of `load_sense_hold` after `n` loop iterations: one more sync
      only while every earlier one succeeded. */
  function Syncs(o: Oracle, dev: bv32, log: seq<Txn>, n: nat): Run
    decreases n
  {
    if n == 0 then Run(log, Success)
    else
      var r := Syncs(o, dev, log, n - 1);
      if r.st.Err? then r else Issue(r.log, SyncSpec(o, dev, |r.log|))
  }

  /** `asic_adc_load_sense_hold`: read the timing register, then send
      charge + measure + 3 syncs, stopping at the first that fails. */
  function HoldSpec(o: Oracle, dev: bv32, log: seq<Txn>): Run {
    var rd := ReadSpec(o, dev, |log|, REG_ADC_LOAD_SENSE_CONFIG);
    if rd.st.Err? then Issue(log, rd)
    else Syncs(o, dev, log + rd.txns, PulseCount(ReadValue(o, |log|)))
  }

  /** One sync reads the state register once. */
  lemma SyncReadsOnce(o: Oracle, dev: bv32, i: nat)
    ensures ReadsOf(SyncSpec(o, dev, i).txns, dev, REG_ADC_STATE) == 1
  {
    var v := WithFlag(ReadValue(o, i), ADC_SYNC);
    RmwShape(o, dev, i, REG_ADC_STATE, v);
    var r := [ReadTx(dev, REG_ADC_STATE)];
    assert ReadsOf(r, dev, REG_ADC_STATE) == 1 by {
      assert r[..0] == [];
    }
    if StatusAt(o, i).Success? {
      assert [ReadTx(dev, REG_ADC_STATE), WriteTx(dev, REG_ADC_STATE, v)][..1] == r;
    }
  }

  /** Once a sync has failed the train issues nothing more. */
  lemma {:induction false} SyncsStop(o: Oracle, dev: bv32, log: seq<Txn>, k: nat, n: nat)
    requires k <= n && Syncs(o, dev, log, k).st.Err?
    ensures Syncs(o, dev, log, n) == Syncs(o, dev, log, k)
    decreases n
  {
    if k < n {
      SyncsStop(o, dev, log, k, n - 1);
    }
  }

  /** A train of syncs keeps the earlier log. */
  lemma {:induction false} SyncsExtend(o: Oracle, dev: bv32, log: seq<Txn>, n: nat)
    ensures var r := Syncs(o, dev, log, n); |log| <= |r.log| && r.log[..|log|] == log
    decreases n
  {
    if n > 0 {
      var p := Syncs(o, dev, log, n - 1);
      SyncsExtend(o, dev, log, n - 1);
      if p.st.Success? {
        assert (p.log + SyncSpec(o, dev, |p.log|).txns)[..|log|] == p.log[..|log|];
      }
    }
  }

  /** A train of `n` syncs that succeeds sends exactly `n` syncs, counted
      by their reads of the state register. */
  lemma {:induction false} SyncsCount(o: Oracle, dev: bv32, log: seq<Txn>, n: nat)
    ensures var r := Syncs(o, dev, log, n);
      r.st.Success? ==> ReadsOf(r.log, dev, REG_ADC_STATE) == ReadsOf(log, dev, REG_ADC_STATE) + n
    decreases n
  {
    if n > 0 {
      var p := Syncs(o, dev, log, n - 1);
      var r := Syncs(o, dev, log, n);
      if p.st.Err? {
        assert r == p;
      } else if r.st.Success? {
        var s := SyncSpec(o, dev, |p.log|);
        assert r == Run(p.log + s.txns, s.st);
        SyncsCount(o, dev, log, n - 1);
        SyncReadsOnce(o, dev, |p.log|);
        ReadsOfAppend(p.log, s.txns, dev, REG_ADC_STATE);
      }
    }
  }

  /** A train of `n` syncs that fails stops right after its first failing
      sync, the `k + 1`-th, having sent `k + 1` syncs. */
  lemma {:induction false} SyncsFailure(o: Oracle, dev: bv32, log: seq<Txn>, n: nat)
    ensures var r := Syncs(o, dev, log, n);
      r.st.Err? ==> exists k :: 0 <= k < n && Syncs(o, dev, log, k).st.Success? && Syncs(o, dev, log, k + 1) == r
                             && ReadsOf(r.log, dev, REG_ADC_STATE) == ReadsOf(log, dev, REG_ADC_STATE) + k + 1
    decreases n
  {
    if n > 0 {
      var p := Syncs(o, dev, log, n - 1);
      var r := Syncs(o, dev, log, n);
      if p.st.Err? {
        assert r == p;
        SyncsFailure(o, dev, log, n - 1);
      } else if r.st.Err? {
        var s := SyncSpec(o, dev, |p.log|);
        assert r == Run(p.log + s.txns, s.st);
        SyncsCount(o, dev, log, n - 1);
        SyncReadsOnce(o, dev, |p.log|);
        ReadsOfAppend(p.log, s.txns, dev, REG_ADC_STATE);
        assert Syncs(o, dev, log, (n - 1) + 1) == r;
      }
    }
  }

  /** `load_sense_hold` sends no sync after a failed read; otherwise it sends
      exactly charge + measure + 3 syncs on success, and on failure stops
      right after the first failing one. */
  lemma HoldIssues(o: Oracle, dev: bv32, log: seq<Txn>)
    ensures StatusAt(o, |log|).Err? ==>
      HoldSpec(o, dev, log) == Run(log + [ReadTx(dev, REG_ADC_LOAD_SENSE_CONFIG)], Err)
    ensures StatusAt(o, |log|).Success? ==>
      var n := PulseCount(ReadValue(o, |log|));
      var start := log + [ReadTx(dev, REG_ADC_LOAD_SENSE_CONFIG)];
      var r := HoldSpec(o, dev, log);
      && r == Syncs(o, dev, start, n)
      && (r.st.Success? ==> ReadsOf(r.log, dev, REG_ADC_STATE) == ReadsOf(start, dev, REG_ADC_STATE) + n)
      && (r.st.Err? ==> exists k :: 0 <= k < n && Syncs(o, dev, start, k).st.Success? && Syncs(o, dev, start, k + 1) == r)
  {
    if StatusAt(o, |log|).Success? {
      SyncsCount(o, dev, log + [ReadTx(dev, REG_ADC_LOAD_SENSE_CONFIG)], PulseCount(ReadValue(o, |log|)));
      SyncsFailure(o, dev, log + [ReadTx(dev, REG_ADC_LOAD_SENSE_CONFIG)], PulseCount(ReadValue(o, |log|)));
    }
  }

  // ---------------------------------------------------------------------
  // The driver calls
  // ---------------------------------------------------------------------

  /** `adc_set_clock_divider`. */
  method SetClockDivider(bus: Asic, divider: Word) returns (st: State)
    requires bus.Ready()
    modifies bus`log, bus`wire
    ensures bus.Ready()
    ensures Performed(bus.log, old(bus.log), WriteSpec(bus.oracle, bus.address, |old(bus.log)|, REG_ADC_CLK, divider), st)
  {
    st := bus.Write(REG_ADC_CLK, divider);
  }

  /** `asic_adc_set_load_sense_timing`. */
  method SetLoadSenseTiming(bus: Asic, chargeTime: Word, measureTime: Word) returns (st: State)
    requires bus.Ready()
    modifies bus`log, bus`wire
    ensures bus.Ready()
    ensures Performed(bus.log, old(bus.log), TimingSpec(bus.oracle, bus.address, |old(bus.log)|, chargeTime, measureTime), st)
  {
    var data: Word := (measureTime << 8) | chargeTime;
    st := bus.Write(REG_ADC_LOAD_SENSE_CONFIG, data);
  }

  /** `asic_adc_set_load_sense_config`: the range check comes before any
      transaction; the argument is then turned into the trim code in place. */
  method SetLoadSenseConfig(bus: Asic, pFTrim: Word) returns (st: State)
    requires bus.Ready()
    modifies bus`log, bus`wire
    ensures bus.Ready()
    ensures Performed(bus.log, old(bus.log), LoadSenseConfigSpec(bus.oracle, bus.address, |old(bus.log)|, pFTrim), st)
  {
    if pFTrim < 2 || pFTrim > 9 {
      return Err;
    }
    var trim := pFTrim;
    trim := trim - 2;
    st := bus.Write(REG_ANA_CONFIG_LOAD_SENSE, trim);
  }

  /** `asic_adc_start_sample`. */
  method StartSample(bus: Asic) returns (st: State)
    requires bus.Ready()
    modifies bus`log, bus`wire
    ensures bus.Ready()
    ensures Performed(bus.log, old(bus.log), StartSampleSpec(bus.oracle, bus.address, |old(bus.log)|), st)
  {
    var data: Word;
    // `data` is uninitialised in the source; a failed read leaves it unused.
    st, data := bus.Read(REG_ADC_STATE, 0);
    if st.Err? {
      return st;
    }
    data := data | ADC_EN;
    st := bus.Write(REG_ADC_STATE, data);
  }

  /** `asic_adc_sync`. */
  method Sync(bus: Asic) returns (st: State)
    requires bus.Ready()
    modifies bus`log, bus`wire
    ensures bus.Ready()
    ensures Performed(bus.log, old(bus.log), SyncSpec(bus.oracle, bus.address, |old(bus.log)|), st)
  {
    var data: Word;
    // `data` is uninitialised in the source; a failed read leaves it unused.
    st, data := bus.Read(REG_ADC_STATE, 0);
    if st.Err? {
      return st;
    }
    data := data | ADC_SYNC;
    st := bus.Write(REG_ADC_STATE, data);
  }

  /** `asic_adc_set_channel`. */
  method SetChannel(bus: Asic, channel: AdcChannel) returns (st: State)
    requires bus.Ready()
    modifies bus`log, bus`wire
    ensures bus.Ready()
    ensures Performed(bus.log, old(bus.log), SetChannelSpec(bus.oracle, bus.address, |old(bus.log)|, channel), st)
  {
    var data: Word;
    // `data` is uninitialised in the source; a failed read leaves it unused.
    st, data := bus.Read(REG_ADC_STATE, 0);
    if st.Err? {
      return st;
    }
    data := WithChannel(data, channel);
    st := bus.Write(REG_ADC_STATE, data);
  }

  /** `asic_adc_load_sense_hold`. */
  method LoadSenseHold(bus: Asic) returns (st: State)
    requires bus.Ready()
    modifies bus`log, bus`wire
    ensures bus.Ready()
    ensures Run(bus.log, st) == HoldSpec(bus.oracle, bus.address, old(bus.log))
  {
    var data: Word;
    // `data` is uninitialised in the source; a failed read leaves it unused.
    st, data := bus.Read(REG_ADC_LOAD_SENSE_CONFIG, 0);
    if st.Err? {
      return st;
    }
    var pulseNumber := PulseCount(data);
    st := SendSyncs(bus, pulseNumber);
  }

  /** One more sync of the train, as `Sync` performs it. */
  lemma SyncsNext(o: Oracle, dev: bv32, log: seq<Txn>, n: nat, total: nat, l: seq<Txn>, l': seq<Txn>, s: State)
    requires n < total
    requires Syncs(o, dev, log, n) == Run(l, Success)
    requires Performed(l', l, SyncSpec(o, dev, |l|), s)
    ensures s.Success? ==> Syncs(o, dev, log, n + 1) == Run(l', Success)
    ensures s.Err? ==> Syncs(o, dev, log, total) == Run(l', Err)
  {
    if s.Err? {
      SyncsStop(o, dev, log, n + 1, total);
    }
  }

  /** The loop of `asic_adc_load_sense_hold`: up to `pulseNumber` syncs,
      leaving at the first that fails. */
  method SendSyncs(bus: Asic, pulseNumber: nat) returns (st: State)
    requires bus.Ready()
    modifies bus`log, bus`wire
    ensures bus.Ready()
    ensures Run(bus.log, st) == Syncs(bus.oracle, bus.address, old(bus.log), pulseNumber)
  {
    ghost var o, dev, start := bus.oracle, bus.address, bus.log;
    var pulse: nat := 0;
    while pulse < pulseNumber
      invariant pulse <= pulseNumber
      invariant bus.Ready() && bus.oracle == o && bus.address == dev
      invariant Run(bus.log, Success) == Syncs(o, dev, start, pulse)
    {
      ghost var l := bus.log;
      var s := Sync(bus);
      SyncsNext(o, dev, start, pulse, pulseNumber, l, bus.log, s);
      if s.Err? {
        return Err;
      }
      pulse := pulse + 1;
    }
    return Success;
  }

  /** `asic_adc_ready`: the read's result is not propagated. */
  method Ready(bus: Asic) returns (ready: bool)
    requires bus.Ready()
    modifies bus`log, bus`wire
    ensures bus.Ready()
    ensures bus.log == old(bus.log) + [ReadTx(bus.address, REG_ADC_STATE)]
    ensures ready == ReadyResult(bus.oracle, |old(bus.log)|)
  {
    var data: Word := 0;
    var _, d := bus.Read(REG_ADC_STATE, data);
    data := d;
    ready := 0 != data & ADC_DONE;
  }

  /** `asic_adc_get_value`: `reading` is the caller's variable. */
  method GetValue(bus: Asic, reading: Word) returns (st: State, out: Word)
    requires bus.Ready()
    modifies bus`log, bus`wire
    ensures bus.Ready()
    ensures Performed(bus.log, old(bus.log), GetValueSpec(bus.oracle, bus.address, |old(bus.log)|), st)
    ensures out == if st.Success? then ReadValue(bus.oracle, |old(bus.log)|) else reading
  {
    st, out := bus.Read(REG_ADC_VAL, reading);
    if st.Err? {
      return st, out;
    }
    return Success, out;
  }

  /** `asic_adc_load_sense_sel`. */
  method LoadSenseSel(bus: Asic, channel: AdcChannel) returns (st: State)
    requires bus.Ready()
    modifies bus`log, bus`wire
    ensures bus.Ready()
    ensures Performed(bus.log, old(bus.log), LoadSenseSelSpec(bus.oracle, bus.address, |old(bus.log)|, channel), st)
  {
    st := bus.Write(REG_ADC_LOAD_SENSE, 1 << channel);
  }

  /** `init_tbit`. */
  method InitTbit(bus: Asic) returns (st: State)
    requires bus.Ready()
    modifies bus`log, bus`wire
    ensures bus.Ready()
    ensures Run(bus.log, st) == ChainWrites(bus.oracle, bus.address, Run(old(bus.log), Success), TbitTable())
  {
    TbitChain(bus.oracle, bus.address, bus.log);
    st := bus.Write(REG_ADC_TBIT_CONFIG, 0xAAAA);
    if st.Err? {
      return st;
    }
    st := bus.Write(REG_ADC_TBIT_START_TIMES, 0x00AA);
  }

  /** A chain of table writes that stops at its first failure, the error
      of the failing write being the chain's result. */
  method WriteAll(bus: Asic, table: seq<RegWrite>) returns (st: State)
    requires bus.Ready()
    modifies bus`log, bus`wire
    ensures bus.Ready()
    ensures Run(bus.log, st) == ChainWrites(bus.oracle, bus.address, Run(old(bus.log), Success), table)
  {
    ghost var o, dev := bus.oracle, bus.address;
    ghost var goal := ChainWrites(o, dev, Run(bus.log, Success), table);
    assert table[0..] == table;
    var k := 0;
    while k < |table|
      invariant k <= |table|
      invariant bus.Ready() && bus.oracle == o && bus.address == dev
      invariant goal == ChainWrites(o, dev, Run(bus.log, Success), table[k..])
    {
      ghost var log := bus.log;
      st := bus.Write(table[k].reg, table[k].value);
      assert table[k..] == [table[k]] + table[k + 1..];
      ChainOneWrite(o, dev, log, table[k]);
      ChainWritesThen(o, dev, log, [table[k]], table[k + 1..], Run(bus.log, st));
      if st.Err? {
        return;
      }
      k := k + 1;
    }
    st := Success;
  }

  /** `init_tconf`: the `do { ... break; } while (0)` chain of fifteen
      literal writes, the first failing one leaving the chain with its
      error. */
  method InitTconf(bus: Asic) returns (st: State)
    requires bus.Ready()
    modifies bus`log, bus`wire
    ensures bus.Ready()
    ensures Run(bus.log, st) == ChainWrites(bus.oracle, bus.address, Run(old(bus.log), Success), TconfTable())
  {
    st := WriteAll(bus, TconfTable());
  }

  /** The five calls of `asic_adc_init`'s chain. */
  datatype InitStep =
    | ClockDivider(divider: Word)
    | Tbit
    | Timing(charge: Word, measure: Word)
    | Tconf
    | LoadSenseConfig(pF: Word)

  /** `asic_adc_init`'s chain: clock divider 6, bit timing, 20/20 load-sense
      pulses, pulse timing, 9 pF. */
  function InitPlan(): seq<InitStep> {
    [ClockDivider(ADC_CLK_DIV), Tbit, Timing(CHARGE_TIME, MEASURE_TIME), Tconf, LoadSenseConfig(CAP_TRIM)]
  }

  /** The writes of one step of the chain; the 9 pF trim passes the range
      check, so every step of the plan is a table of writes. */
  function StepTable(s: InitStep): seq<RegWrite>
    requires s.LoadSenseConfig? ==> TrimCode(s.pF).Some?
  {
    match s
    case ClockDivider(d) => [RegWrite(REG_ADC_CLK, d)]
    case Tbit => TbitTable()
    case Timing(c, m) => [RegWrite(REG_ADC_LOAD_SENSE_CONFIG, TimingWord(c, m))]
    case Tconf => TconfTable()
    case LoadSenseConfig(pF) => [RegWrite(REG_ANA_CONFIG_LOAD_SENSE, TrimCode(pF).value)]
  }

  /** The writes of the steps of `plan` from `k` on, in order. */
  function PlanTable(plan: seq<InitStep>, k: nat): seq<RegWrite>
    requires k <= |plan|
    requires forall j | k <= j < |plan| :: plan[j].LoadSenseConfig? ==> TrimCode(plan[j].pF).Some?
    decreases |plan| - k
  {
    if k == |plan| then [] else StepTable(plan[k]) + PlanTable(plan, k + 1)
  }

  /** The plan's writes are the start-up table. */
  lemma InitPlanTable()
    ensures PlanTable(InitPlan(), 0) == InitTable()
  {
    var p := InitPlan();
    assert PlanTable(p, 5) == [];
    assert PlanTable(p, 4) == [RegWrite(REG_ANA_CONFIG_LOAD_SENSE, TrimCode(CAP_TRIM).value)];
    assert PlanTable(p, 3) == TconfTable() + PlanTable(p, 4);
    assert PlanTable(p, 2) == [RegWrite(REG_ADC_LOAD_SENSE_CONFIG, TimingWord(CHARGE_TIME, MEASURE_TIME))] + PlanTable(p, 3);
    assert PlanTable(p, 1) == TbitTable() + PlanTable(p, 2);
  }

  /** One of the three single-write calls of `asic_adc_init`'s chain. */
  method PerformWrite(bus: Asic, s: InitStep) returns (st: State)
    requires !s.Tbit? && !s.Tconf?
    requires s.LoadSenseConfig? ==> TrimCode(s.pF).Some?
    requires bus.Ready()
    modifies bus`log, bus`wire
    ensures bus.Ready()
    ensures Run(bus.log, st) == ChainWrites(bus.oracle, bus.address, Run(old(bus.log), Success), StepTable(s))
  {
    ghost var o, dev, log := bus.oracle, bus.address, bus.log;
    match s
    case ClockDivider(d) =>
      assert StepTable(s) == [RegWrite(REG_ADC_CLK, d)];
      st := SetClockDivider(bus, d);
      ChainOneWrite(o, dev, log, RegWrite(REG_ADC_CLK, d));
    case Timing(c, m) =>
      assert StepTable(s) == [RegWrite(REG_ADC_LOAD_SENSE_CONFIG, TimingWord(c, m))];
      st := SetLoadSenseTiming(bus, c, m);
      ChainOneWrite(o, dev, log, RegWrite(REG_ADC_LOAD_SENSE_CONFIG, TimingWord(c, m)));
    case LoadSenseConfig(pF) =>
      assert StepTable(s) == [RegWrite(REG_ANA_CONFIG_LOAD_SENSE, TrimCode(pF).value)];
      st := SetLoadSenseConfig(bus, pF);
      ChainOneWrite(o, dev, log, RegWrite(REG_ANA_CONFIG_LOAD_SENSE, TrimCode(pF).value));
  }

  /** One call of `asic_adc_init`'s chain, made with the arguments the step
      carries. */
  method Perform(bus: Asic, s: InitStep) returns (st: State)
    requires s.LoadSenseConfig? ==> TrimCode(s.pF).Some?
    requires bus.Ready()
    modifies bus`log, bus`wire
    ensures bus.Ready()
    ensures Run(bus.log, st) == ChainWrites(bus.oracle, bus.address, Run(old(bus.log), Success), StepTable(s))
  {
    if s.Tbit? {
      assert StepTable(s) == TbitTable();
      st := InitTbit(bus);
    } else if s.Tconf? {
      assert StepTable(s) == TconfTable();
      st := InitTconf(bus);
    } else {
      st := PerformWrite(bus, s);
    }
  }

  /** `asic_adc_init`: the five calls of its `||` chain, in order; the first
      failure gives the aggregate error. */
  method Init(bus: Asic) returns (st: State)
    requires bus.Ready()
    modifies bus`log, bus`wire
    ensures bus.Ready()
    ensures Run(bus.log, st) == ChainWrites(bus.oracle, bus.address, Run(old(bus.log), Success), InitTable())
  {
    ghost var o, dev := bus.oracle, bus.address;
    var plan := InitPlan();
    ghost var goal := ChainWrites(o, dev, Run(bus.log, Success), PlanTable(plan, 0));
    InitPlanTable();
    var k := 0;
    while k < |plan|
      invariant k <= |plan|
      invariant bus.Ready() && bus.oracle == o && bus.address == dev
      invariant goal == ChainWrites(o, dev, Run(bus.log, Success), PlanTable(plan, k))
    {
      ghost var log := bus.log;
      st := Perform(bus, plan[k]);
      ChainWritesThen(o, dev, log, StepTable(plan[k]), PlanTable(plan, k + 1), Run(bus.log, st));
      if st.Err? {
        return Err;
      }
      k := k + 1;
    }
    return Success;
  }
}
