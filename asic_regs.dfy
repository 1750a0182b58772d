/** The register map. The real numbers live in a header that is not part of
    this model; the values below are placeholders chosen only to be distinct
    and below 256 (the width of the command word's register field). The
    per-channel PWM registers are a base plus a stride of two, so the delay and
    duty bases are adjacent and leave room for sixteen channels. */
module AsicRegs {
  import opened AsicCommon

  // GPIO block
  const REG_GPIO_OE: RegId := 0x01
  const REG_GPIO_OUTSEL: RegId := 0x02
  const REG_GPIO_OUT: RegId := 0x03
  const REG_GPIO_IN: RegId := 0x04
  const REG_PWM_GPIO_OUTSEL: RegId := 0x05

  // PWM block
  const REG_PWM_CONFIG: RegId := 0x10
  const REG_SHORT_CONFIG: RegId := 0x11
  const REG_SHORT_DETECT: RegId := 0x12
  const REG_PWM_OE: RegId := 0x13
  const REG_PWM_EN: RegId := 0x14
  const REG_asic_pwm_dither: RegId := 0x15
  const REG_PWM0_DELAY: RegId := 0x20
  const REG_PWM0_DUTY: RegId := 0x21

  // ADC block
  const REG_ADC_CLK: RegId := 0x60
  const REG_ADC_TBIT_CONFIG: RegId := 0x61
  const REG_ADC_TBIT_START_TIMES: RegId := 0x62
  const REG_ADC_PULSE_START_STOP1: RegId := 0x63
  const REG_ADC_PULSE_START_STOP2: RegId := 0x64
  const REG_ADC_PULSE_SMALL_START_STOP1: RegId := 0x65
  const REG_ADC_PULSE_SMALL_START_STOP2: RegId := 0x66
  const REG_ADC_PULSE_AZ1_START_STOP1: RegId := 0x67
  const REG_ADC_PULSE_AZ1_START_STOP2: RegId := 0x68
  const REG_ADC_PULSE_AZ2_START_STOP1: RegId := 0x69
  const REG_ADC_PULSE_AZ2_START_STOP2: RegId := 0x6A
  const REG_ADC_PULSE_RST_BIT_START_STOP1: RegId := 0x6B
  const REG_ADC_PULSE_RST_BIT_START_STOP2: RegId := 0x6C
  const REG_ADC_PULSE_RST_HALF_START_STOP1: RegId := 0x6D
  const REG_ADC_PULSE_RST_HALF_START_STOP2: RegId := 0x6E
  const REG_ADC_BIT_START: RegId := 0x6F
  const REG_ADC_LOAD_SENSE_CONFIG: RegId := 0x70
  const REG_ANA_CONFIG_LOAD_SENSE: RegId := 0x71
  const REG_ADC_STATE: RegId := 0x72
  const REG_ADC_VAL: RegId := 0x73
  const REG_ADC_LOAD_SENSE: RegId := 0x74
}
