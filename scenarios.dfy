/**
 * Whole-driver scenarios on a fresh bus whose transactions all succeed unless
 * the oracle names them: what a caller sees across several calls.
 */
module Scenarios {
  import opened Registers
  import opened Codec
  import opened Bus
  import opened Driver

  /** After writing both thresholds, the register file holds their bytes where the threshold
      getter reads them back. */
  lemma {:induction false} ThresholdsStored(r0: RegFile, low: bv16, high: bv16, s: nat)
    ensures
      var r1 := Commit(r0, Chain([RegWrite(THRES_LOW_VAL_L, LowByte(low)), RegWrite(THRES_LOW_VAL_H, HighByte(low))], {}, s));
      var r2 := Commit(r1, Chain([RegWrite(THRES_HIGH_VAL_L, LowByte(high)), RegWrite(THRES_HIGH_VAL_H, HighByte(high))], {}, s + 2));
      && Join16(r2[Index(THRES_LOW_VAL_H)], r2[Index(THRES_LOW_VAL_L)]) == low
      && Join16(r2[Index(THRES_HIGH_VAL_H)], r2[Index(THRES_HIGH_VAL_L)]) == high
  {
    IndexTable();
    ChainOfTwo(RegWrite(THRES_LOW_VAL_L, LowByte(low)), RegWrite(THRES_LOW_VAL_H, HighByte(low)), {}, s);
    ChainOfTwo(RegWrite(THRES_HIGH_VAL_L, LowByte(high)), RegWrite(THRES_HIGH_VAL_H, HighByte(high)), {}, s + 2);
    var r1 := Commit(r0, Chain([RegWrite(THRES_LOW_VAL_L, LowByte(low)), RegWrite(THRES_LOW_VAL_H, HighByte(low))], {}, s));
    CommitTwo(r0, Access(RegWrite(THRES_LOW_VAL_L, LowByte(low)), true), Access(RegWrite(THRES_LOW_VAL_H, HighByte(low)), true));
    CommitTwo(r1, Access(RegWrite(THRES_HIGH_VAL_L, LowByte(high)), true), Access(RegWrite(THRES_HIGH_VAL_H, HighByte(high)), true));
    SplitJoinRoundTrip(low, 0, 0);
    SplitJoinRoundTrip(high, 0, 0);
  }

  /** Thresholds written with the setters read back unchanged with the getter. */
  method ThresholdRoundTrip(regs0: RegFile, low: bv16, high: bv16) returns (gotLow: bv16, gotHigh: bv16)
    ensures gotLow == low && gotHigh == high
  {
    var bus := new RegisterBus(regs0, {});
    var dev := new Vcnl4020c(bus);
    var okLow := dev.SetThresholdLow(low);
    var okHigh := dev.SetThresholdHigh(high);
    var ok;
    ok, gotHigh, gotLow := dev.GetThresholds(0, 0);
    ThresholdsStored(regs0, low, high, 0);
  }

  /** With every transaction succeeding, initialisation succeeds exactly when the product ID
      nibble is 2 or the revision nibble is 1. */
  method InitAcceptsEitherId(regs0: RegFile) returns (ok: bool, scratch: bv8)
    ensures ok <==> (regs0[Index(PROD_ID)] >> 4 == 2 || regs0[Index(PROD_ID)] & 0x0F == 1)
    ensures scratch == if ok then 0 else regs0[Index(PROD_ID)]
  {
    var bus := new RegisterBus(regs0, {});
    var dev := new Vcnl4020c(bus);
    ok := dev.InitSensorDefault();
    IdAcceptedIffEitherMatches(regs0[Index(PROD_ID)]);
    scratch := dev.regValue;
  }

  /** When transaction `k` is the first to fail after an accepted identity read, initialisation
      fails after making exactly `k + 1` transactions: it stops at the failed write. */
  method InitStopsAtFailure(regs0: RegFile, k: nat) returns (ok: bool, made: nat)
    requires 1 <= k <= |DEFAULT_PLAN|
    requires regs0[Index(PROD_ID)] >> 4 == 2 || regs0[Index(PROD_ID)] & 0x0F == 1
    ensures !ok && made == k + 1
  {
    var bus := new RegisterBus(regs0, {k});
    var dev := new Vcnl4020c(bus);
    IdAcceptedIffEitherMatches(regs0[Index(PROD_ID)]);
    ok := dev.InitSensorDefault();
    ChainStopsAt(DEFAULT_PLAN, {k}, 1, k - 1);
    made := |bus.log|;
  }

  /** A pending proximity interrupt is reported by the first check, which clears it, and not by
      the second. */
  method InterruptReportedOnce(regs0: RegFile) returns (first: bool, second: bool)
    requires Raised(regs0[Index(INT_STATUS)], INT_BIO_RDY)
    ensures first && !second
  {
    var bus := new RegisterBus(regs0, {});
    var dev := new Vcnl4020c(bus);
    first := dev.CheckBioInt();
    ClearedIsNotRaised(regs0[Index(INT_STATUS)], INT_BIO_RDY);
    second := dev.CheckBioInt();
  }

  /** The modulation setter ignores its argument and writes the scratch byte: after a check
      that found the biosensor bit raised with no re-arm, the register receives that bit's
      mask and not the vendor setting. */
  method ModulationTakesScratchByte(regs0: RegFile) returns (stored: bv8)
    requires Raised(regs0[Index(INT_STATUS)], INT_BIO_RDY)
    ensures stored == INT_BIO_RDY && stored != BIO_SETTINGS_VISHAY
  {
    var bus := new RegisterBus(regs0, {});
    var dev := new Vcnl4020c(bus);
    var hit := dev.CheckBioInt();
    var ok := dev.SetBioSensMod(BIO_SETTINGS_VISHAY);
    assert [Access(RegWrite(BIO_SETTINGS, INT_BIO_RDY), true)][..0] == [];
    IndexTable();
    ok, stored := dev.GetBioSensMod(0);
  }

  /** Stopping continuous measurement with an interrupt callback bound leaves every pending
      interrupt flag set: the zero it writes to the status register clears no bit. */
  method StopKeepsPendingFlags(regs0: RegFile) returns (status: bv8)
    ensures status == regs0[Index(INT_STATUS)]
  {
    var bus := new RegisterBus(regs0, {});
    var dev := new Vcnl4020c(bus);
    dev.SetInterruptCb(true, 2);
    var stopped := dev.StopContinuous();
    var ok;
    ok, status := dev.CheckInterrupts(0);
  }
}
