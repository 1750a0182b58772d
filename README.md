# ASIC driver core, modelled in Dafny

This project models the firmware driver for a mixed-signal ASIC. The driver's
register transport (`asic_spi.c`) turns every register access into a 29-bit
SPI command word:

- device address in bits 28:26;
- register number in bits 25:18;
- operation in bits 17:16 (0 for write, 1 for read);
- data in bits 15:0.

Each access is sent twice. The first transfer has chip select deasserted and
resets the chip's SPI state. The second has chip select asserted, and only
its status decides the result.

Three peripheral drivers sit on top of the transport:

- GPIO (`asic_gpio.c`): output enable, output select, write, read, the
  PWM-to-GPIO mux, and init.
- PWM (`asic_pwm.c`): sync, short-circuit protection, delay and duty per
  channel, hi-z, enable, config, dither, and init.
- ADC (`asic_adc.c`): the clock divider, the `TBIT` and pulse-timing
  calibration tables, load-sense timing and trim, channel select, start,
  sync, load-sense hold, ready, value, and init.

How the model is built:

- **The SPI link is an oracle.** The link itself is not modelled. An oracle
  (`Oracle = nat -> Reply`) answers every transaction, indexed by the number
  of transactions issued before it. A reply gives:
  - the status of the reset transfer;
  - the status of the addressed transfer;
  - the 32-bit word received.
- **The driver's globals are the class `AsicSpi.Asic`.** It holds:
  - the handle;
  - the device address;
  - the log of transactions issued;
  - the wire, i.e. the frames sent with their chip-select level.

  The invariant `Valid()` says that the wire is exactly two frames per logged
  transaction, both carrying that transaction's packet.
- **Peripheral operations are module-level methods that take that object as
  their `bus` parameter** and change only its log and wire. Each one's
  postcondition equates the new log and its result with a specification
  function of the oracle and the old log: an `Outcome` for one operation, or
  a `Run` for a chain of calls. The properties the source promises are lemmas
  about those functions:
  - what is written;
  - which bits change;
  - where a chain stops;
  - when it succeeds;
  - what a read returns.
- **Register numbers are placeholders.** `asic_regs.h` is not part of this
  model. The register numbers in `asic_regs.dfy` are placeholders that are
  distinct and below 256. No property depends on their values, except that
  the PWM channel registers are a base plus twice the channel number.

## Model

| member | source | states |
|---|---|---|
| AsicCommon.Code | fw_asic/inc/asic_common.h:6 | `asicState` takes exactly the values 0 (success) and -1 (error) |
| AsicCommon.FailureTestsAgree | fw_asic/src/asic_gpio.c:34 | the two failure tests the drivers use, `kAsiceSuccess > state` and `kAsiceSuccess != state`, agree, and both hold exactly on error |
| AsicSpi.Decode | fw_asic/src/asic_spi.c:110-113 | splitting a word into device/register/operation/data gives fields that fit in 3/8/2/16 bits |
| AsicSpi.DecodeEncode | fw_asic/src/asic_spi.c:110-119 | a command whose fields fit their widths survives encoding and decoding unchanged |
| AsicSpi.EncodeDecode | fw_asic/src/asic_spi.c:110-119 | every 29-bit word is the encoding of its own decoded fields |
| AsicSpi.EncodeAnyDevice | fw_asic/src/asic_spi.c:116-119 | with an unchecked device address, only its low three bits reach the device field; the word stays within 29 bits iff bits 3-5 of the address are zero |
| AsicSpi.PacketLayout | fw_asic/src/asic_spi.c:115-119 | the shift-and-or packet builders of write and read are the field encoding, with operation 0 and data for writes and operation 1 and data 0 for reads |
| AsicSpi.DecodeWritePacket | fw_asic/src/asic_spi.c:115-119 | a write packet decodes to the device address modulo 8, the register, operation 0 and the data |
| AsicSpi.DecodeReadPacket | fw_asic/src/asic_spi.c:157-161 | a read packet decodes to the device address modulo 8, the register, operation 1 and data 0 |
| AsicSpi.DecodePacket | fw_asic/src/asic_spi.c:115-161 | any logged transaction's packet decodes back to its device, register, operation and data |
| AsicSpi.Frames | fw_asic/src/asic_spi.c:131-135 | every transaction puts exactly two frames on the wire |
| AsicSpi.FramesSnoc | fw_asic/src/asic_spi.c:131-135 | one more transaction appends a chip-select-deasserted frame then a chip-select-asserted frame, both carrying its packet |
| AsicSpi.FramesAt | fw_asic/src/asic_spi.c:174-178 | frames 2k and 2k+1 both carry the k-th transaction's packet, and only the second is sent with chip select asserted |
| AsicSpi.StatusAt | fw_asic/src/asic_spi.c:137-140 | a transaction succeeds iff its addressed transfer reports `ARM_DRIVER_OK`; the status of the reset transfer is overwritten and never decides |
| AsicSpi.Then | fw_asic/src/asic_gpio.c:33-40 | a read followed by a write only when the read succeeded (the early return of the read-modify-writes) succeeds iff both succeed |
| AsicSpi.RmwShape | fw_asic/src/asic_gpio.c:33-40 | a read-modify-write issues only the read when the read fails and returns error; otherwise it issues the read then exactly one write, and returns that write's status |
| AsicSpi.Writes | fw_asic/src/asic_adc.c:49-140 | a table of register writes becomes one write transaction per entry, in table order |
| AsicSpi.FirstFailure | fw_asic/src/asic_adc.c:42-143 | it finds the position of the first failing transaction: every one before it succeeds, and the one at it fails |
| AsicSpi.ChainWritesAfterFailure | fw_asic/src/asic_adc.c:51-53 | once a chain has failed, no later write of it is issued and the failure is kept |
| AsicSpi.ChainWritesAppend | fw_asic/src/asic_adc.c:42-143 | a chain over two tables is the chain over the first, continued with the second |
| AsicSpi.ChainFirstFails | fw_asic/src/asic_adc.c:22-25 | when the first write fails, only it is issued and the chain fails |
| AsicSpi.ChainFirstSucceeds | fw_asic/src/asic_adc.c:22-32 | when the first write succeeds, the chain continues with the rest of the table |
| AsicSpi.ChainWritesIssues | fw_asic/src/asic_adc.c:42-144 | a chain of writes issues the table up to and including its first failing write and nothing after it; it succeeds iff no write fails |
| AsicSpi.ChainOneWrite | fw_asic/src/asic_adc.c:153-155 | a chain of one write is exactly that write and its status |
| AsicSpi.ChainWritesThen | fw_asic/src/asic_adc.c:195-199 | chaining a second table after a first continues only when the first succeeded |
| AsicSpi.SpiHandle.constructor | fw_asic/inc/asic_spi.h:8-14 | a handle holds the link driver and the four callbacks it was given |
| AsicSpi.Asic.constructor | fw_asic/src/asic_spi.c:6-7 | at start-up there is no handle, the device address is 0 and nothing has been sent |
| AsicSpi.Asic.InitSPI | fw_asic/src/asic_spi.c:60-88 | it stores the handle before checking it. It succeeds iff the handle, its link and both chip-select callbacks are non-NULL and the link comes up. It installs the internal busy-flag lock and unlock when either semaphore callback is NULL, and leaves them alone otherwise |
| AsicSpi.Asic.SetAddress | fw_asic/src/asic_spi.c:96-99 | it stores the address unchecked and always succeeds |
| AsicSpi.Asic.Write | fw_asic/src/asic_spi.c:108-141 | it logs exactly one write of the data to the register at the current address, adds its two frames to the wire, and returns the addressed transfer's status |
| AsicSpi.Asic.Read | fw_asic/src/asic_spi.c:150-188 | it logs exactly one read and adds its two frames. On success the caller's value becomes the low 16 bits of the received word; on failure the caller's value is unchanged |
| AsicGpio.MaskedUpdateIsSetField | fw_asic/src/asic_gpio.c:30-39 | clearing the 16-bit-truncated nibble mask and or-ing in the shifted selection is the same as replacing nibble `ch` of the register; for `ch` 4-6 the truncated masks vanish and the register is kept unchanged |
| AsicGpio.SetFieldNibble | fw_asic/src/asic_gpio.c:30-39 | after the update, nibble `ch` holds the low four bits of the selection and every other nibble is unchanged |
| AsicGpio.Line | fw_asic/src/asic_gpio.c:55 | the k-th line init visits is line number k, held in the `uint8_t` counter |
| AsicGpio.OutputSelectRejects | fw_asic/src/asic_gpio.c:26-28 | a channel above 3 is rejected with error, and nothing is sent |
| AsicGpio.OutputSelectWrites | fw_asic/src/asic_gpio.c:25-41 | for channels 0-3: a failed read of `GPIO_OUTSEL` ends the call with error. Otherwise the register is written back with nibble `ch` set to the selection and the other three nibbles as read, and the write's status is the result |
| AsicGpio.PwmMuxSelectWrites | fw_asic/src/asic_gpio.c:78-90 | same read-modify-write on `PWM_GPIO_OUTSEL` with the PWM channel's low four bits. For lines 4-6 the value read is written back unchanged |
| AsicGpio.SelectFromExtends | fw_asic/src/asic_gpio.c:55-57 | the select loop only appends, one or two transactions per line |
| AsicGpio.SelectFromReadsEveryLine | fw_asic/src/asic_gpio.c:55-57 | the select loop reads `GPIO_OUTSEL` once per remaining line, whatever earlier calls returned |
| AsicGpio.OutputSelectReadsOnce | fw_asic/src/asic_gpio.c:33-40 | a valid output select issues one or two transactions, exactly one of them a read of `GPIO_OUTSEL` |
| AsicGpio.InitIsBestEffort | fw_asic/src/asic_gpio.c:53-59 | init ignores every result. It first writes all outputs low, tries the select on all four lines, and always ends by enabling all four outputs: 6 to 10 transactions |
| AsicGpio.CounterAt | fw_asic/src/asic_gpio.c:55 | the `uint8_t` loop counter holds the line number at each visit |
| AsicGpio.CounterStep | fw_asic/src/asic_gpio.c:55 | the 8-bit counter increments without wrapping and leaves the loop exactly after line 3 |
| AsicGpio.OutputEnable | fw_asic/src/asic_gpio.c:14-16 | one write of the mask to `GPIO_OE`, returning its status |
| AsicGpio.UpdateField | fw_asic/src/asic_gpio.c:30-40 | the shared read-modify-write of one nibble |
| AsicGpio.OutputSelect | fw_asic/src/asic_gpio.c:25-41 | issues exactly the output-select specification's transactions and returns its result |
| AsicGpio.Write | fw_asic/src/asic_gpio.c:49-51 | one write of the output values to `GPIO_OUT` |
| AsicGpio.Init | fw_asic/src/asic_gpio.c:53-59 | the `uint8_t` loop issues exactly the init log |
| AsicGpio.Read | fw_asic/src/asic_gpio.c:67-69 | one read of `GPIO_IN`; the caller's value is replaced only on success |
| AsicGpio.PwmMuxSelect | fw_asic/src/asic_gpio.c:78-90 | issues exactly the mux-select specification's transactions and returns its result |
| AsicPwm.ShortConfigWord | fw_asic/src/asic_pwm.c:33-37 | the short-config word carries the filter's low 6 bits, and has bit 6 clear iff protection is enabled. Nothing above bit 6 is set |
| AsicPwm.OnOffWord | fw_asic/src/asic_pwm.c:117-118 | on is all ones and off is all zeros |
| AsicPwm.HighZWord | fw_asic/src/asic_pwm.c:103-104 | the output-enable word is the complement of the on/off word: hi-z clears every output |
| AsicPwm.ConfigWord | fw_asic/src/asic_pwm.c:132-146 | the low 12 bits are the dither seed and commit (0x0AA5). Bit 14 is clear iff linear mode is on, bit 12 is set iff count-from-centre is on, and bits 13 and 15 (sync) are clear |
| AsicPwm.ChannelRegs | fw_asic/src/asic_pwm.c:70 | `base + 2*channel` in 16 bits maps distinct channels below 0x8000 to distinct registers, and channel c+0x8000 aliases channel c |
| AsicPwm.SyncSetsOnlyBit15 | fw_asic/src/asic_pwm.c:14-24 | sync reads `PWM_CONFIG`. If the read fails, it stops with error. Otherwise it writes the value back with bit 15 set and bits 0-14 as read, and returns the write's status |
| AsicPwm.WriteThenSyncIssues | fw_asic/src/asic_pwm.c:69-77 | the setters return the status of their own write, whatever the sync does, and issue the sync's transactions after the write only when asked |
| AsicPwm.StepRunStarts | fw_asic/src/asic_pwm.c:178-183 | every init step starts with its own register write |
| AsicPwm.InitPlanWrites | fw_asic/src/asic_pwm.c:176-187 | init performs six steps. Their first writes are the short config, clearing the shorts, outputs on (not hi-z), the config, the dither on/off word and PWM enable |
| AsicPwm.RunStepsAfterFailure | fw_asic/src/asic_pwm.c:178-185 | after a failed step no later step is issued |
| AsicPwm.RunStepsSplit | fw_asic/src/asic_pwm.c:178-183 | running a plan is running its first k steps then the rest |
| AsicPwm.RunStepsAdvance | fw_asic/src/asic_pwm.c:178-183 | running k+1 steps is running k steps and then step k only if they all succeeded |
| AsicPwm.StopsAtFirstFailure | fw_asic/src/asic_pwm.c:178-185 | step k runs only when the steps before it succeeded, and a failure at step k is the final result of init |
| AsicPwm.SucceedsIffEveryStep | fw_asic/src/asic_pwm.c:178-186 | init succeeds iff every step it reaches succeeds |
| AsicPwm.Sync | fw_asic/src/asic_pwm.c:14-24 | issues exactly the sync specification's transactions |
| AsicPwm.ShortCircuitProtectionControl | fw_asic/src/asic_pwm.c:33-39 | one write of the short-config word |
| AsicPwm.ShortCircuitClear | fw_asic/src/asic_pwm.c:46-49 | one write of all ones to `SHORT_DETECT` |
| AsicPwm.ShortCircuitGet | fw_asic/src/asic_pwm.c:57-59 | one read of `SHORT_DETECT`; the caller's value is replaced only on success |
| AsicPwm.DelaySet | fw_asic/src/asic_pwm.c:69-77 | writes the delay to the channel's delay register, optionally syncs, and returns the write's status |
| AsicPwm.DutySet | fw_asic/src/asic_pwm.c:87-95 | writes the duty to the channel's duty register, optionally syncs, and returns the write's status |
| AsicPwm.SetHighz | fw_asic/src/asic_pwm.c:103-109 | writes the hi-z word to `PWM_OE`, always syncs, and returns the write's status |
| AsicPwm.Enable | fw_asic/src/asic_pwm.c:117-123 | writes the on/off word to `PWM_EN`, always syncs, and returns the write's status |
| AsicPwm.SetConfig | fw_asic/src/asic_pwm.c:132-151 | writes the config word, always syncs, and returns the write's status |
| AsicPwm.Dither | fw_asic/src/asic_pwm.c:159-164 | writes the dither on/off word, always syncs, and returns the write's status |
| AsicPwm.Perform | fw_asic/src/asic_pwm.c:178-183 | runs one init step exactly as its specification says |
| AsicPwm.Init | fw_asic/src/asic_pwm.c:176-187 | the short-circuit chain of the six steps issues exactly the plan's run, stopping at the first failing step |
| AsicPwm.Advance | fw_asic/src/asic_pwm.c:178-185 | one step further along the plan; a failed step ends the run |
| AsicAdc.WithChannelSelects | fw_asic/src/asic_adc.c:252-253 | after the update, the channel field of the state word is the requested channel |
| AsicAdc.WithChannelKeeps | fw_asic/src/asic_adc.c:252-253 | setting the channel leaves bits 3-15 of the state word as they were |
| AsicAdc.WithChannelSame | fw_asic/src/asic_adc.c:252-253 | re-selecting the current channel writes the state word back unchanged |
| AsicAdc.WithFlagSets | fw_asic/src/asic_adc.c:217 | or-ing in a flag sets it |
| AsicAdc.WithFlagKeeps | fw_asic/src/asic_adc.c:234 | or-ing in a flag leaves every other bit unchanged |
| AsicAdc.WithFlagSame | fw_asic/src/asic_adc.c:217 | setting a flag that is already set writes the word back unchanged |
| AsicAdc.ChargeOf | fw_asic/src/asic_adc.c:270 | the charge time read back fits in a byte |
| AsicAdc.MeasureOf | fw_asic/src/asic_adc.c:271 | the measure time read back fits in a byte |
| AsicAdc.TimingWordCharge | fw_asic/src/asic_adc.c:165 | the charge field of the timing word is the charge time's low byte |
| AsicAdc.TimingWordMeasure | fw_asic/src/asic_adc.c:165 | the measure field is the measure time's low byte or-ed with the charge time's high byte, since a charge time above 255 is not masked |
| AsicAdc.TimingWordRoundTrip | fw_asic/src/asic_adc.c:165-271 | times below 256 written by the timing setter are read back unchanged by load-sense hold |
| AsicAdc.TimingWordOfFields | fw_asic/src/asic_adc.c:165-271 | every register value is the timing word of its own two fields |
| AsicAdc.PulseCount | fw_asic/src/asic_adc.c:269-274 | the number of sync pulses is between 3 and 513, so the 16-bit sum never wraps |
| AsicAdc.DefaultHoldIs43Pulses | fw_asic/src/asic_adc.c:191-196 | the init timing (20, 20) is the word 0x1414 and makes load-sense hold send 43 syncs |
| AsicAdc.TrimCode | fw_asic/src/asic_adc.c:175-181 | a trim is accepted iff it is 2 to 9 pF, and its code is the capacitance minus 2, which is at most 7 |
| AsicAdc.LoadSenseWord | fw_asic/src/asic_adc.c:318-323 | the load-sense word has exactly one bit set: the selected channel's |
| AsicAdc.OneHotBit | fw_asic/src/asic_adc.c:323 | bit k of `1 << c` is set iff k equals c |
| AsicAdc.PulseOf | fw_asic/src/asic_adc.c:43-48 | a pulse word's start (bits 0-5) and stop (bits 6-11) fields each fit in 6 bits |
| AsicAdc.PulseRoundTrip | fw_asic/src/asic_adc.c:43-48 | packing a start and stop below 64 into a pulse word and unpacking it gives them back, within 12 bits |
| AsicAdc.TbitMatchesComments | fw_asic/src/asic_adc.c:15-31 | `TBIT_CONFIG` puts the value 10 in each of its four nibbles, and `TBIT_START_TIMES` does so in its two low nibbles only |
| AsicAdc.TbitBit | fw_asic/src/asic_adc.c:21-31 | bit k of 0xAAAA is set iff k is odd; bit k of 0x00AA is set iff k is odd and below 8 |
| AsicAdc.TbitChain | fw_asic/src/asic_adc.c:14-33 | init_tbit writes `TBIT_CONFIG`, then `TBIT_START_TIMES` only if the first write succeeded, and returns the last status |
| AsicAdc.TconfMatchesComments | fw_asic/src/asic_adc.c:40-140 | every pulse constant except 0x1476 packs the start and stop of its comment. 0x1476 decodes to start 54, stop 17 and a stray bit 12. The table ends with `BIT_START` 53 |
| AsicAdc.InitTableWords | fw_asic/src/asic_adc.c:189-198 | ADC init writes 20 registers in order: the clock divider 6, the two TBIT words, the timing 0x1414, the 15-entry pulse table ending with `BIT_START` 53, and trim code 7 |
| AsicAdc.InitStopsAtFirstFailure | fw_asic/src/asic_adc.c:189-202 | ADC init issues the 20 writes up to and including the first failing one, and succeeds iff none fails |
| AsicAdc.ReadyIffDone | fw_asic/src/asic_adc.c:289-295 | ready is true iff the read of `ADC_STATE` succeeded and its bit 4 (`ADC_DONE`) is set; a failed read leaves 0 and reports not ready |
| AsicAdc.StartSampleWrites | fw_asic/src/asic_adc.c:209-219 | a failed read of `ADC_STATE` stops with error; otherwise the word read is written back with `ADC_EN` (bit 3) set |
| AsicAdc.SyncWrites | fw_asic/src/asic_adc.c:226-236 | a failed read of `ADC_STATE` stops with error; otherwise the word read is written back with the sync bit (bit 6) set |
| AsicAdc.SetChannelWrites | fw_asic/src/asic_adc.c:244-255 | a failed read stops with error; otherwise the state word is written back with channel field c and bits 3-15 as read |
| AsicAdc.LoadSenseConfigRange | fw_asic/src/asic_adc.c:175-182 | a trim outside 2-9 sends nothing and fails; inside, it writes pF-2 and returns that write's status; 9 pF writes 7 |
| AsicAdc.SyncReadsOnce | fw_asic/src/asic_adc.c:226-236 | every ADC sync reads `ADC_STATE` exactly once |
| AsicAdc.SyncsStop | fw_asic/src/asic_adc.c:275-279 | once a sync has failed, the loop issues nothing more |
| AsicAdc.SyncsExtend | fw_asic/src/asic_adc.c:275-279 | the sync loop only appends to the log |
| AsicAdc.SyncsCount | fw_asic/src/asic_adc.c:275-280 | when the loop succeeds it has sent exactly n syncs |
| AsicAdc.SyncsFailure | fw_asic/src/asic_adc.c:275-278 | when the loop fails, some sync k+1 failed after k successful ones, and nothing was sent after it |
| AsicAdc.HoldIssues | fw_asic/src/asic_adc.c:262-281 | load-sense hold fails at once if reading the timing fails. Otherwise it sends charge+measure+3 syncs and succeeds, or fails right after the first failing sync |
| AsicAdc.SetClockDivider | fw_asic/src/asic_adc.c:153-155 | one write of the divider to `ADC_CLK` |
| AsicAdc.SetLoadSenseTiming | fw_asic/src/asic_adc.c:164-167 | one write of the timing word to `ADC_LOAD_SENSE_CONFIG` |
| AsicAdc.SetLoadSenseConfig | fw_asic/src/asic_adc.c:175-182 | issues exactly the trim specification: nothing and error when out of range, else one write |
| AsicAdc.StartSample | fw_asic/src/asic_adc.c:209-219 | issues exactly the start-sample read-modify-write |
| AsicAdc.Sync | fw_asic/src/asic_adc.c:226-236 | issues exactly the sync read-modify-write |
| AsicAdc.SetChannel | fw_asic/src/asic_adc.c:244-255 | issues exactly the channel read-modify-write |
| AsicAdc.LoadSenseHold | fw_asic/src/asic_adc.c:262-281 | issues exactly the hold specification: one read, then the sync train |
| AsicAdc.SyncsNext | fw_asic/src/asic_adc.c:275-279 | one more iteration of the sync loop: a success extends the train, and a failure is the loop's final result |
| AsicAdc.SendSyncs | fw_asic/src/asic_adc.c:275-280 | the loop sends syncs until one fails or the count is reached, exactly as the sync-train specification says |
| AsicAdc.Ready | fw_asic/src/asic_adc.c:289-295 | one read of `ADC_STATE`; returns whether it succeeded with `ADC_DONE` set |
| AsicAdc.GetValue | fw_asic/src/asic_adc.c:303-310 | one read of `ADC_VAL`; the caller's reading is replaced only on success |
| AsicAdc.LoadSenseSel | fw_asic/src/asic_adc.c:318-324 | one write of the one-hot channel word to `ADC_LOAD_SENSE` |
| AsicAdc.InitTbit | fw_asic/src/asic_adc.c:14-33 | issues the two TBIT writes, stopping at the first failure |
| AsicAdc.WriteAll | fw_asic/src/asic_adc.c:42-143 | walks a table of writes, stopping at the first failure (the `do { … break; } while (0)` chain) |
| AsicAdc.InitTconf | fw_asic/src/asic_adc.c:40-145 | issues the 15 pulse-table writes, stopping at the first failure, and succeeds iff all succeed |
| AsicAdc.InitPlanTable | fw_asic/src/asic_adc.c:195-198 | the five init steps together write exactly the 20-entry init table |
| AsicAdc.PerformWrite | fw_asic/src/asic_adc.c:195-198 | the clock, timing and trim steps each perform their single write |
| AsicAdc.Perform | fw_asic/src/asic_adc.c:195-198 | each init step issues its part of the table, stopping at the first failure |
| AsicAdc.Init | fw_asic/src/asic_adc.c:189-202 | the short-circuit chain of the five steps issues the 20-entry init table, stopping at the first failure |

## Left out

- The CMSIS link driver is not modelled: `Initialize`, `PowerControl`, `Control`, `Send` and `Transfer`. Its replies come from the oracle. The configuration constants (speed, mode, 29 data bits) are not modelled.
- AsicSpi.Asic.InitSPI: the three link calls are one boolean parameter, `linkOk`. The `callback` argument and its defaulting to `default_callback` are not modelled, since they only reach the link driver.
- `default_callback`, `lock`, `unlock` and the `busy_flag` are interrupt-time and concurrency behaviour, and are not modelled. The model does record which lock and unlock callbacks the handle holds. It also does not model that `asic_write` calls `lockSem` twice and never `unlockSem`, or that `asic_read` calls `lockSem` three times.
- The chip-select callbacks are not modelled as calls; the wire's chip-select level stands for them.
- `asic_regs.h` is not part of this model: register numbers are placeholders.
- `Driver_SPI.h` is not part of this model: `ARM_DRIVER_OK` is 0.
- The header declares `asic_pwm_mux_select` as `void` with a `uint16_t` line number. The implementation modelled here returns `asicState` and takes a `uint8_t` line number.
- The unit tests in `fw_asic/test/test_asic_spi.c` are not modelled.
- AsicGpio.PwmMuxSelect: requires line < 7. For line 7 and above, `0xf << (4 * line)` overflows a C `int`, which is undefined behaviour. The source has no range check.
- AsicGpio.UpdateField: requires line < 7 for the same reason.
- AsicAdc.LoadSenseHold: the `uint16_t` loop counter is a `nat`. The count is at most 513, so the 16-bit counter never wraps.
- ADC channels are 0-7. `kADCChannel_Total` (8) and values outside the enum are excluded.
- The `||` chains of the PWM and ADC init and the `do { … } while (0)` chain of `init_tconf` are walks over a plan or table. The set of transactions and results is the same as the straight-line code.
- Uninitialised `uint16_t data` locals are passed to the read as 0. They are only used after a successful read, which overwrites them.
- `asic_adc_init` sets the ADC clock divider through `adc_set_clock_divider`, which the header does not declare. It is modelled as `SetClockDivider`.
- Two oddities in `init_tconf` are stated, not corrected, because the intended values cannot be confirmed without the register map:
  - One constant does not match its comment: `0x1476` (line 50) decodes to start 54 and stop 17 plus bit 12, while the comment's 36/51 would be `0x0CE4`. See `AsicAdc.TconfMatchesComments`.
  - One register choice looks suspicious: lines 77-78 write the "short IP" constants `0x0840` and `0x0000`, which do match their comments, to the `SMALL` registers, which lines 64-65 have just written. The table keeps this as written.
