/**
 * The pure expressions of the driver: clamping of setter arguments, packing of
 * bit fields into one register byte, splitting of 16-bit thresholds into two
 * register bytes and joining of two result bytes into a 16-bit value, and the
 * decoding of the product / revision byte.
 */
module Codec {
  import opened Registers

  /** `v` clamped down to `max`: values above the largest code are reduced to it, never rejected. */
  function Clamp(v: bv8, max: bv8): (r: bv8)
    ensures r <= max && r <= v
    ensures r == v || r == max
  {
    if v > max then max else v
  }

  /** Clamping is the identity on legal values and idempotent. */
  lemma ClampFacts(v: bv8, max: bv8)
    ensures v <= max ==> Clamp(v, max) == v
    ensures max < v ==> Clamp(v, max) == max
    ensures Clamp(Clamp(v, max), max) == Clamp(v, max)
  {
  }

  /** The ambient-light parameter byte: offset compensation, rate and averaging ORed together,
      each argument clamped to its largest code first. */
  function PackAlsParam(dataRate: bv8, avgConv: bv8, offsetComp: bool): (r: bv8)
    ensures r & CONT_CONV_ENA == 0
    ensures offsetComp ==> r & AUTO_COMP_ENA == AUTO_COMP_ENA
    ensures r & Clamp(dataRate, AMB_SENS_RATE_10) == Clamp(dataRate, AMB_SENS_RATE_10)
    ensures r & Clamp(avgConv, AVG_CONV_128) == Clamp(avgConv, AVG_CONV_128)
    ensures r & !(AUTO_COMP_ENA | Clamp(dataRate, AMB_SENS_RATE_10) | Clamp(avgConv, AVG_CONV_128)) == 0
  {
    var comp: bv8 := if offsetComp then AUTO_COMP_ENA else 0;
    comp | Clamp(dataRate, AMB_SENS_RATE_10) | Clamp(avgConv, AVG_CONV_128)
  }

  /** The byte built up one field at a time, as the setter does, is the packed byte. */
  lemma PackAlsParamStepwise(dataRate: bv8, avgConv: bv8, offsetComp: bool, comp: bv8, rate: bv8, avg: bv8)
    requires comp == if offsetComp then 0 | AUTO_COMP_ENA else 0
    requires rate == Clamp(dataRate, AMB_SENS_RATE_10) && avg == Clamp(avgConv, AVG_CONV_128)
    ensures comp | rate | avg == PackAlsParam(dataRate, avgConv, offsetComp)
  {
  }

  /** For enumerated rate and averaging codes the three fields read back unchanged. */
  lemma AlsParamRoundTrip(dataRate: bv8, avgConv: bv8, offsetComp: bool)
    requires dataRate & 0x8F == 0 && avgConv & 0xF8 == 0
    ensures PackAlsParam(dataRate, avgConv, offsetComp) & 0x70 == dataRate
    ensures PackAlsParam(dataRate, avgConv, offsetComp) & 0x07 == avgConv
    ensures (PackAlsParam(dataRate, avgConv, offsetComp) & AUTO_COMP_ENA != 0) == offsetComp
  {
  }

  /** A rate argument that is no rate code but below the largest one is not masked:
      its low bits land in the compensation and averaging fields. */
  lemma AlsRateBleedsIntoOtherFields()
    ensures PackAlsParam(0x0F, AVG_CONV_1, false) == 0x0F
  {
  }

  /** The interrupt control byte: three enable bits, the threshold select bit (set for any
      selector other than INT_THRES_BIO) and the clamped count field. */
  function PackIntControl(bioEna: bool, alsEna: bool, thresEna: bool, thresSel: bv8, thresCount: bv8): (r: bv8)
    ensures bioEna ==> r & INT_BS_RDY_ENA != 0
    ensures alsEna ==> r & INT_ALS_RDY_ENA != 0
    ensures thresEna ==> r & INT_THRES_ENA != 0
    ensures thresSel != INT_THRES_BIO ==> r & INT_THRES_ALS != 0
    ensures r & 0xF0 == Clamp(thresCount, INT_CNT_EXC_128) & 0xF0
    ensures Clamp(thresCount, INT_CNT_EXC_128) & 0x0F == 0 ==>
      && (r & INT_BS_RDY_ENA != 0 <==> bioEna)
      && (r & INT_ALS_RDY_ENA != 0 <==> alsEna)
      && (r & INT_THRES_ENA != 0 <==> thresEna)
      && (r & INT_THRES_ALS != 0 <==> thresSel != INT_THRES_BIO)
  {
    var bio: bv8 := if bioEna then INT_BS_RDY_ENA else 0;
    var als: bv8 := if alsEna then INT_ALS_RDY_ENA else 0;
    var thres: bv8 := if thresEna then INT_THRES_ENA else 0;
    var sel: bv8 := if thresSel == INT_THRES_BIO then INT_THRES_BIO else INT_THRES_ALS;
    bio | als | thres | sel | Clamp(thresCount, INT_CNT_EXC_128)
  }

  /** The byte built up one field at a time, as the setter does, is the packed byte. */
  lemma PackIntControlStepwise(bioEna: bool, alsEna: bool, thresEna: bool, thresSel: bv8, thresCount: bv8,
                               bio: bv8, als: bv8, thres: bv8, sel: bv8, count: bv8)
    requires bio == if bioEna then 0 | INT_BS_RDY_ENA else 0
    requires als == if alsEna then bio | INT_ALS_RDY_ENA else bio
    requires thres == if thresEna then als | INT_THRES_ENA else als
    requires sel == if thresSel == INT_THRES_BIO then thres | INT_THRES_BIO else thres | INT_THRES_ALS
    requires count == Clamp(thresCount, INT_CNT_EXC_128)
    ensures sel | count == PackIntControl(bioEna, alsEna, thresEna, thresSel, thresCount)
  {
  }

  /** For an enumerated count code every field of the control byte reads back. */
  lemma IntControlRoundTrip(bioEna: bool, alsEna: bool, thresEna: bool, thresSel: bv8, thresCount: bv8)
    requires thresCount & 0x1F == 0
    ensures PackIntControl(bioEna, alsEna, thresEna, thresSel, thresCount) & 0xE0 == thresCount
    ensures (PackIntControl(bioEna, alsEna, thresEna, thresSel, thresCount) & INT_BS_RDY_ENA != 0) == bioEna
    ensures (PackIntControl(bioEna, alsEna, thresEna, thresSel, thresCount) & INT_ALS_RDY_ENA != 0) == alsEna
    ensures (PackIntControl(bioEna, alsEna, thresEna, thresSel, thresCount) & INT_THRES_ENA != 0) == thresEna
    ensures (PackIntControl(bioEna, alsEna, thresEna, thresSel, thresCount) & INT_THRES_ALS != 0) == (thresSel != INT_THRES_BIO)
    ensures PackIntControl(bioEna, alsEna, thresEna, thresSel, thresCount) & 0x10 == 0
  {
  }

  /** A count argument with low bits below the clamp sets enable bits on its own. */
  lemma IntCountBleedsIntoEnableBits()
    ensures PackIntControl(false, false, false, INT_THRES_BIO, 0x08) & INT_BS_RDY_ENA != 0
  {
  }

  /** Command byte for an on-demand measurement: the start bits of the requested channels,
      with the self-timed bit cleared. */
  function SingleCommand(bio: bool, als: bool): (r: bv8)
    ensures r & SELF_TIMED_EN == 0
    ensures (r & START_BIO_MES != 0) == bio
    ensures (r & START_ALS_MES != 0) == als
    ensures r & !(START_BIO_MES | START_ALS_MES) == 0
  {
    var b: bv8 := if bio then START_BIO_MES else 0;
    var a: bv8 := if als then START_ALS_MES else 0;
    (b | a) & SELF_TIMED_DIS
  }

  /** Command byte for periodic measurement: the self-timed bit and the enable bits of the
      requested channels. */
  function ContinuousCommand(bio: bool, als: bool): (r: bv8)
    ensures r & SELF_TIMED_EN == SELF_TIMED_EN
    ensures (r & PER_BIO_MEAS_EN != 0) == bio
    ensures (r & PER_ALS_MEAS_EN != 0) == als
    ensures r & !(SELF_TIMED_EN | PER_BIO_MEAS_EN | PER_ALS_MEAS_EN) == 0
  {
    var b: bv8 := if bio then PER_BIO_MEAS_EN else 0;
    var a: bv8 := if als then PER_ALS_MEAS_EN else 0;
    b | a | SELF_TIMED_EN
  }

  /** Interrupt control byte written when measurements start with an interrupt bound:
      data-ready enables of the requested channels and the threshold enable. Every other
      field of the control register (count, select) is written as zero. */
  function ArmingByte(bio: bool, als: bool, thresholds: bool): (r: bv8)
    ensures (r & INT_BS_RDY_ENA != 0) == bio
    ensures (r & INT_ALS_RDY_ENA != 0) == als
    ensures (r & INT_THRES_ENA != 0) == thresholds
    ensures r & !(INT_BS_RDY_ENA | INT_ALS_RDY_ENA | INT_THRES_ENA) == 0
  {
    var b: bv8 := if bio then INT_BS_RDY_ENA else 0;
    var a: bv8 := if als then INT_ALS_RDY_ENA else 0;
    var t: bv8 := if thresholds then INT_THRES_ENA else 0;
    b | a | t
  }

  /** The command byte of a single measurement as the start call builds it, one flag at a time. */
  lemma SingleCommandStepwise(bio: bool, als: bool, b: bv8, a: bv8)
    requires b == if bio then 0 | START_BIO_MES else 0
    requires a == if als then b | START_ALS_MES else b
    ensures a & SELF_TIMED_DIS == SingleCommand(bio, als)
  {
  }

  /** The command byte of continuous measurement as the start call builds it. */
  lemma ContinuousCommandStepwise(bio: bool, als: bool, b: bv8, a: bv8)
    requires b == if bio then 0 | PER_BIO_MEAS_EN else 0
    requires a == if als then b | PER_ALS_MEAS_EN else b
    ensures a | SELF_TIMED_EN == ContinuousCommand(bio, als)
  {
  }

  /** The interrupt enable byte as the start calls build it. */
  lemma ArmingByteStepwise(bio: bool, als: bool, thresholds: bool, b: bv8, a: bv8, t: bv8)
    requires b == if bio then 0 | INT_BS_RDY_ENA else 0
    requires a == if als then b | INT_ALS_RDY_ENA else b
    requires t == if thresholds then a | INT_THRES_ENA else a
    ensures t == ArmingByte(bio, als, thresholds)
  {
  }

  /** Every bit of `mask` is set in the status byte: the test each interrupt check makes. */
  predicate Raised(status: bv8, mask: bv8)
  {
    status & mask == mask
  }

  /** Once the bits of a non-empty mask are cleared, the mask no longer reads as raised. */
  lemma ClearedIsNotRaised(status: bv8, mask: bv8)
    requires mask != 0
    ensures !Raised(status & !mask, mask)
    ensures Raised(status, mask) ==> Raised(status | mask, mask) && status | mask == status
  {
  }

  /** The product ID (high nibble) and revision ID (low nibble) of the ID byte. */
  function SplitIds(b: bv8): (ids: (bv8, bv8))
    ensures ids.0 <= 15 && ids.1 <= 15
    ensures ids.0 * 16 + ids.1 == b
  {
    (b >> 4, b & 0x0F)
  }

  /** The initialisation's identity test: it rejects the chip only when BOTH the product
      ID differs from 2 AND the revision ID differs from 1. */
  predicate IdAccepted(prodID: bv8, revID: bv8) {
    !(prodID != 2 && revID != 1)
  }

  /** The test accepts a chip when either nibble matches, not only when both do. */
  lemma IdAcceptedIffEitherMatches(b: bv8)
    ensures IdAccepted(SplitIds(b).0, SplitIds(b).1) <==> (b >> 4 == 2 || b & 0x0F == 1)
    ensures IdAccepted(SplitIds(0x21).0, SplitIds(0x21).1)
    ensures IdAccepted(SplitIds(0x31).0, SplitIds(0x31).1)
    ensures IdAccepted(SplitIds(0x25).0, SplitIds(0x25).1)
    ensures !IdAccepted(SplitIds(0x35).0, SplitIds(0x35).1)
  {
  }

  /** Low register byte of a 16-bit threshold (the truncating byte assignment). */
  function LowByte(t: bv16): (b: bv8)
    ensures b as bv16 == t & 0xFF
  {
    (t & 0xFF) as bv8
  }

  /** High register byte of a 16-bit threshold. */
  function HighByte(t: bv16): (b: bv8)
    ensures b as bv16 == t >> 8
  {
    (t >> 8) as bv8
  }

  /** A 16-bit value from its high and low register bytes. */
  function Join16(hi: bv8, lo: bv8): (r: bv16)
    ensures r >> 8 == hi as bv16
    ensures r & 0xFF == lo as bv16
  {
    ((hi as bv16) << 8) + lo as bv16
  }

  /** Splitting and joining are inverse to each other in both directions. */
  lemma SplitJoinRoundTrip(t: bv16, hi: bv8, lo: bv8)
    ensures Join16(HighByte(t), LowByte(t)) == t
    ensures HighByte(Join16(hi, lo)) == hi && LowByte(Join16(hi, lo)) == lo
  {
  }

  /** A genuine reading of 0xFFFF equals the failure sentinel of the result getters. */
  lemma SentinelIsAReading()
    ensures Join16(0xFF, 0xFF) == 0xFFFF
  {
  }
}
