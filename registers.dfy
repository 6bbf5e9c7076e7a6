/**
 * Register map of the VCNL4020C biosensor / ambient-light sensor: the bus
 * address, the sixteen register addresses and the bit masks of each register,
 * bit-exact as the driver's header defines them. The lemmas state the layout
 * facts the driver relies on: disable masks are complements of enable masks,
 * the fields of one register do not overlap, and the addresses form one
 * contiguous block.
 */
module Registers {

  /** Default 7-bit bus address. */
  const VCNL4020C_ADDR: int := 0x13

  // Command register (0x80)
  const CMD_REG: bv8 := 0x80
  const SELF_TIMED_EN: bv8 := 0x01
  const SELF_TIMED_DIS: bv8 := 0xFE
  const PER_BIO_MEAS_EN: bv8 := 0x02
  const PER_BIO_MEAS_DIS: bv8 := 0xFD
  const PER_ALS_MEAS_EN: bv8 := 0x04
  const PER_ALS_MEAS_DIS: bv8 := 0xFB
  const START_BIO_MES: bv8 := 0x08
  const STOP_BIO_MES: bv8 := 0xF7
  const START_ALS_MES: bv8 := 0x10
  const STOP_ALS_MES: bv8 := 0xEF
  const BIO_DATA_READY: bv8 := 0x20
  const ALS_DATA_READY: bv8 := 0x40
  const CONFIG_LOCK: bv8 := 0x80

  // Product ID / revision register (0x81)
  const PROD_ID: bv8 := 0x81

  // Biosensor measurement rate register (0x82)
  const BIO_SENS_RATE: bv8 := 0x82
  const BIO_SENS_RATE_1_95: bv8 := 0x00
  const BIO_SENS_RATE_3_9: bv8 := 0x01
  const BIO_SENS_RATE_7_8: bv8 := 0x02
  const BIO_SENS_RATE_16_3: bv8 := 0x03
  const BIO_SENS_RATE_31_3: bv8 := 0x04
  const BIO_SENS_RATE_62_5: bv8 := 0x05
  const BIO_SENS_RATE_125: bv8 := 0x06
  const BIO_SENS_RATE_250: bv8 := 0x07

  // LED current register (0x83)
  const LED_CURRENT: bv8 := 0x83
  const FUSE_MASK: bv8 := 0xC0
  const CURRENT_MASK: bv8 := 0x3F
  /** Largest LED current code the setter lets through (20 x 10 mA). */
  const LED_CURRENT_MAX: bv8 := 20

  // Ambient light parameter register (0x84)
  const AMBIENT_LIGHT_PARAM: bv8 := 0x84
  const CONT_CONV_ENA: bv8 := 0x80
  const CONT_CONV_DIS: bv8 := 0x7F
  const AMB_SENS_RATE_1: bv8 := 0x00
  const AMB_SENS_RATE_2: bv8 := 0x10
  const AMB_SENS_RATE_3: bv8 := 0x20
  const AMB_SENS_RATE_4: bv8 := 0x30
  const AMB_SENS_RATE_5: bv8 := 0x40
  const AMB_SENS_RATE_6: bv8 := 0x50
  const AMB_SENS_RATE_8: bv8 := 0x60
  const AMB_SENS_RATE_10: bv8 := 0x70
  const AUTO_COMP_ENA: bv8 := 0x08
  const AUTO_COMP_DIS: bv8 := 0xF7
  const AVG_CONV_1: bv8 := 0x00
  const AVG_CONV_2: bv8 := 0x01
  const AVG_CONV_4: bv8 := 0x02
  const AVG_CONV_8: bv8 := 0x03
  const AVG_CONV_16: bv8 := 0x04
  const AVG_CONV_32: bv8 := 0x05
  const AVG_CONV_64: bv8 := 0x06
  const AVG_CONV_128: bv8 := 0x07

  // Result registers (0x85 - 0x88)
  const AMB_RESULT_H: bv8 := 0x85
  const AMB_RESULT_L: bv8 := 0x86
  const BIO_RESULT_H: bv8 := 0x87
  const BIO_RESULT_L: bv8 := 0x88

  // Interrupt control register (0x89)
  const INT_CONTR: bv8 := 0x89
  const INT_CNT_EXC_1: bv8 := 0x00
  const INT_CNT_EXC_2: bv8 := 0x20
  const INT_CNT_EXC_4: bv8 := 0x40
  const INT_CNT_EXC_8: bv8 := 0x60
  const INT_CNT_EXC_16: bv8 := 0x80
  const INT_CNT_EXC_32: bv8 := 0xA0
  const INT_CNT_EXC_64: bv8 := 0xC0
  const INT_CNT_EXC_128: bv8 := 0xE0
  const INT_BS_RDY_ENA: bv8 := 0x08
  const INT_BS_RDY_DIS: bv8 := 0xF7
  const INT_ALS_RDY_ENA: bv8 := 0x04
  const INT_ALS_RDY_DIS: bv8 := 0xFB
  const INT_THRES_ENA: bv8 := 0x02
  const INT_THRES_DIS: bv8 := 0xFD
  const INT_THRES_BIO: bv8 := 0x00
  const INT_THRES_ALS: bv8 := 0x01

  // Threshold registers (0x8A - 0x8D)
  const THRES_LOW_VAL_H: bv8 := 0x8A
  const THRES_LOW_VAL_L: bv8 := 0x8B
  const THRES_HIGH_VAL_H: bv8 := 0x8C
  const THRES_HIGH_VAL_L: bv8 := 0x8D

  // Interrupt status register (0x8E), write-one-to-clear
  const INT_STATUS: bv8 := 0x8E
  const INT_BIO_RDY: bv8 := 0x08
  const INT_ALS_RDY: bv8 := 0x04
  const INT_TH_LOW_RDY: bv8 := 0x02
  const INT_TH_HIGH_RDY: bv8 := 0x01

  // Biosensor modulator timing register (0x8F)
  const BIO_SETTINGS: bv8 := 0x8F
  const BIO_SETTINGS_VISHAY: bv8 := 0x01

  /** The register addresses in the order of the header. */
  const ADDRESSES: seq<bv8> :=
    [CMD_REG, PROD_ID, BIO_SENS_RATE, LED_CURRENT, AMBIENT_LIGHT_PARAM,
     AMB_RESULT_H, AMB_RESULT_L, BIO_RESULT_H, BIO_RESULT_L, INT_CONTR,
     THRES_LOW_VAL_H, THRES_LOW_VAL_L, THRES_HIGH_VAL_H, THRES_HIGH_VAL_L,
     INT_STATUS, BIO_SETTINGS]

  /** The command register's enable / status bits, from bit 0 to bit 7. */
  const COMMAND_BITS: seq<bv8> :=
    [SELF_TIMED_EN, PER_BIO_MEAS_EN, PER_ALS_MEAS_EN, START_BIO_MES,
     START_ALS_MES, BIO_DATA_READY, ALS_DATA_READY, CONFIG_LOCK]

  const AMB_SENS_RATES: seq<bv8> :=
    [AMB_SENS_RATE_1, AMB_SENS_RATE_2, AMB_SENS_RATE_3, AMB_SENS_RATE_4,
     AMB_SENS_RATE_5, AMB_SENS_RATE_6, AMB_SENS_RATE_8, AMB_SENS_RATE_10]

  const AVG_CONVS: seq<bv8> :=
    [AVG_CONV_1, AVG_CONV_2, AVG_CONV_4, AVG_CONV_8,
     AVG_CONV_16, AVG_CONV_32, AVG_CONV_64, AVG_CONV_128]

  const INT_CNT_EXCS: seq<bv8> :=
    [INT_CNT_EXC_1, INT_CNT_EXC_2, INT_CNT_EXC_4, INT_CNT_EXC_8,
     INT_CNT_EXC_16, INT_CNT_EXC_32, INT_CNT_EXC_64, INT_CNT_EXC_128]

  const BIO_SENS_RATES: seq<bv8> :=
    [BIO_SENS_RATE_1_95, BIO_SENS_RATE_3_9, BIO_SENS_RATE_7_8, BIO_SENS_RATE_16_3,
     BIO_SENS_RATE_31_3, BIO_SENS_RATE_62_5, BIO_SENS_RATE_125, BIO_SENS_RATE_250]

  /** The interrupt status masks, highest bit first. */
  const STATUS_MASKS: seq<bv8> := [INT_BIO_RDY, INT_ALS_RDY, INT_TH_LOW_RDY, INT_TH_HIGH_RDY]

  /** True of the sixteen register addresses. */
  predicate InMap(reg: bv8) {
    CMD_REG <= reg <= BIO_SETTINGS
  }

  /** Position of a register in a sixteen-cell register file. */
  function Index(reg: bv8): (i: nat)
    requires InMap(reg)
    ensures i < 16
  {
    if reg == CMD_REG then 0
    else if reg == PROD_ID then 1
    else if reg == BIO_SENS_RATE then 2
    else if reg == LED_CURRENT then 3
    else if reg == AMBIENT_LIGHT_PARAM then 4
    else if reg == AMB_RESULT_H then 5
    else if reg == AMB_RESULT_L then 6
    else if reg == BIO_RESULT_H then 7
    else if reg == BIO_RESULT_L then 8
    else if reg == INT_CONTR then 9
    else if reg == THRES_LOW_VAL_H then 10
    else if reg == THRES_LOW_VAL_L then 11
    else if reg == THRES_HIGH_VAL_H then 12
    else if reg == THRES_HIGH_VAL_L then 13
    else if reg == INT_STATUS then 14
    else 15
  }
  /** The position of each named register, for proofs that mention several of them. */
  lemma IndexTable()
    ensures Index(CMD_REG) == 0
    ensures Index(PROD_ID) == 1
    ensures Index(BIO_SENS_RATE) == 2
    ensures Index(LED_CURRENT) == 3
    ensures Index(AMBIENT_LIGHT_PARAM) == 4
    ensures Index(AMB_RESULT_H) == 5
    ensures Index(AMB_RESULT_L) == 6
    ensures Index(BIO_RESULT_H) == 7
    ensures Index(BIO_RESULT_L) == 8
    ensures Index(INT_CONTR) == 9
    ensures Index(THRES_LOW_VAL_H) == 10
    ensures Index(THRES_LOW_VAL_L) == 11
    ensures Index(THRES_HIGH_VAL_H) == 12
    ensures Index(THRES_HIGH_VAL_L) == 13
    ensures Index(INT_STATUS) == 14
    ensures Index(BIO_SETTINGS) == 15
  {
  }


  /** Every "disable" mask is the bitwise complement of the enable mask of the same bit. */
  lemma DisableMasksAreComplements()
    ensures SELF_TIMED_DIS == !SELF_TIMED_EN
    ensures PER_BIO_MEAS_DIS == !PER_BIO_MEAS_EN
    ensures PER_ALS_MEAS_DIS == !PER_ALS_MEAS_EN
    ensures STOP_BIO_MES == !START_BIO_MES
    ensures STOP_ALS_MES == !START_ALS_MES
    ensures CONT_CONV_DIS == !CONT_CONV_ENA
    ensures AUTO_COMP_DIS == !AUTO_COMP_ENA
    ensures INT_BS_RDY_DIS == !INT_BS_RDY_ENA
    ensures INT_ALS_RDY_DIS == !INT_ALS_RDY_ENA
    ensures INT_THRES_DIS == !INT_THRES_ENA
  {
  }

  /** The eight command-register masks are the single bits 0 to 7, one each. */
  lemma CommandBitsAreSingleBits()
    ensures |COMMAND_BITS| == 8
    ensures forall i :: 0 <= i < 8 ==> COMMAND_BITS[i] == (1 as bv8) << i
    ensures forall i, j :: 0 <= i < j < 8 ==> COMMAND_BITS[i] & COMMAND_BITS[j] == 0
  {
  }

  /** The ambient-light parameter fields: rate in bits 6-4, averaging in bits 2-0,
      offset compensation bit 3, continuous conversion bit 7. */
  lemma AlsParamFieldsDisjoint()
    ensures forall i :: 0 <= i < |AMB_SENS_RATES| ==> AMB_SENS_RATES[i] & 0x8F == 0
    ensures forall i :: 0 <= i < |AVG_CONVS| ==> AVG_CONVS[i] & 0xF8 == 0
    ensures AUTO_COMP_ENA == 1 << 3 && CONT_CONV_ENA == 1 << 7
    ensures forall i :: 0 <= i < 8 ==> AMB_SENS_RATES[i] == (i as bv8) << 4 && AVG_CONVS[i] == i as bv8
  {
  }

  /** The interrupt count codes use only bits 7-5, apart from the enable and select bits 3-0. */
  lemma IntCountFieldDisjoint()
    ensures forall i :: 0 <= i < |INT_CNT_EXCS| ==> INT_CNT_EXCS[i] == (i as bv8) << 5
    ensures forall i :: 0 <= i < |INT_CNT_EXCS| ==>
      INT_CNT_EXCS[i] & (INT_BS_RDY_ENA | INT_ALS_RDY_ENA | INT_THRES_ENA | INT_THRES_ALS) == 0
  {
  }

  /** The biosensor rate codes are 0 to 7, BIO_SENS_RATE_250 the largest. */
  lemma BioRateCodes()
    ensures forall i :: 0 <= i < |BIO_SENS_RATES| ==> BIO_SENS_RATES[i] == i as bv8 <= BIO_SENS_RATE_250
  {
  }

  /** The fuse-ID and LED-current fields split the LED register between them. */
  lemma LedRegisterFields()
    ensures FUSE_MASK & CURRENT_MASK == 0
    ensures FUSE_MASK | CURRENT_MASK == 0xFF
    ensures LED_CURRENT_MAX & FUSE_MASK == 0
  {
  }

  /** The status masks are the four distinct bits 3..0; three of them coincide with the
      matching enable bits of the control register, the high-threshold one with the
      threshold-select bit. */
  lemma InterruptMasks()
    ensures forall i :: 0 <= i < |STATUS_MASKS| ==> STATUS_MASKS[i] == (1 as bv8) << (3 - i)
    ensures INT_BIO_RDY == INT_BS_RDY_ENA
    ensures INT_ALS_RDY == INT_ALS_RDY_ENA
    ensures INT_TH_LOW_RDY == INT_THRES_ENA
    ensures INT_TH_HIGH_RDY == INT_THRES_ALS
    ensures INT_TH_HIGH_RDY & (INT_BS_RDY_ENA | INT_ALS_RDY_ENA | INT_THRES_ENA) == 0
  {
  }

  /** The addresses are 0x80 .. 0x8F in order, so no two registers share one. */
  lemma AddressesContiguous()
    ensures |ADDRESSES| == 16
    ensures forall i :: 0 <= i < 16 ==> ADDRESSES[i] == CMD_REG + i as bv8
    ensures forall i :: 0 <= i < 16 ==> InMap(ADDRESSES[i]) && Index(ADDRESSES[i]) == i
    ensures forall i, j :: 0 <= i < j < 16 ==> ADDRESSES[i] != ADDRESSES[j]
  {
  }
}
