/**
 * The VCNL4020C driver object. Every method of the driver is a method of the
 * class below, with the same branches, early returns and uses of the shared
 * scratch byte `regValue`. Each contract states which transactions the call
 * makes (`Performed`), what it returns and what becomes of the driver's fields.
 * The frame (`modifies`) names the fields a method may change; every other
 * field keeps its value.
 */
module Driver {
  import opened Registers
  import opened Codec
  import opened Bus

  /** The writes of the default configuration that follow a successful identity check, one per
      setter call: the command, rates, LED current and interrupt control registers. */
  const DEFAULT_HEAD: seq<Request> :=
    [ RegWrite(CMD_REG, 0),
      RegWrite(BIO_SENS_RATE, Clamp(BIO_SENS_RATE_125, BIO_SENS_RATE_250)),
      RegWrite(LED_CURRENT, Clamp(10, LED_CURRENT_MAX)),
      RegWrite(AMBIENT_LIGHT_PARAM, PackAlsParam(AMB_SENS_RATE_10, AVG_CONV_1, false)),
      RegWrite(INT_CONTR, PackIntControl(false, false, false, 0, INT_CNT_EXC_1)) ]

  /** The rest of the default configuration: two writes per threshold, then the scratch byte that
      `setBioSensMod` writes in place of its argument, at that point the high byte of the high
      threshold. */
  const DEFAULT_TAIL: seq<Request> :=
    [ RegWrite(THRES_LOW_VAL_L, LowByte(0)), RegWrite(THRES_LOW_VAL_H, HighByte(0)),
      RegWrite(THRES_HIGH_VAL_L, LowByte(0)), RegWrite(THRES_HIGH_VAL_H, HighByte(0)),
      RegWrite(BIO_SETTINGS, HighByte(0)) ]

  const DEFAULT_PLAN: seq<Request> := DEFAULT_HEAD + DEFAULT_TAIL

  /** The bytes of the default configuration: the modulation register receives 0, not the vendor
      setting BIO_SETTINGS_VISHAY passed to the setter. */
  lemma DefaultPlanBytes()
    ensures DEFAULT_PLAN ==
      [ RegWrite(CMD_REG, 0x00), RegWrite(BIO_SENS_RATE, 0x06), RegWrite(LED_CURRENT, 0x0A),
        RegWrite(AMBIENT_LIGHT_PARAM, 0x70), RegWrite(INT_CONTR, 0x00), RegWrite(THRES_LOW_VAL_L, 0x00),
        RegWrite(THRES_LOW_VAL_H, 0x00), RegWrite(THRES_HIGH_VAL_L, 0x00), RegWrite(THRES_HIGH_VAL_H, 0x00),
        RegWrite(BIO_SETTINGS, 0x00) ]
    ensures DEFAULT_PLAN[9].value != BIO_SETTINGS_VISHAY
  {
  }

  /** The scratch byte the first five setters of the default configuration leave behind when
      they start at transaction `s`: the packed ambient-light byte when that write is the one
      that fails, and 0 otherwise (every other setter on the way stores 0 or nothing). */
  function HeadScratch(oracle: set<nat>, s: nat): bv8
  {
    if Verdict(oracle, s) && Verdict(oracle, s + 1) && Verdict(oracle, s + 2) && !Verdict(oracle, s + 3)
    then PackAlsParam(AMB_SENS_RATE_10, AVG_CONV_1, false)
    else 0
  }

  /** The four reads of the threshold getter, low threshold first, low byte first. */
  const THRESHOLD_READS: seq<Request> :=
    [RegRead(THRES_LOW_VAL_L), RegRead(THRES_LOW_VAL_H), RegRead(THRES_HIGH_VAL_L), RegRead(THRES_HIGH_VAL_H)]

  /** The byte written back to the interrupt control register when an interrupt is re-armed: the
      control byte just read, or the scratch byte left over if that read failed, with `mask` set. */
  function RearmValue(readOk: bool, ctrl: bv8, scratch: bv8, mask: bv8): (v: bv8)
    ensures v & mask == mask
    ensures v & !mask == (if readOk then ctrl else scratch) & !mask
  {
    (if readOk then ctrl else scratch) | mask
  }

  /** The transactions that acknowledge the interrupts in `mask`, numbered from `s` on: clear the
      status bits, then, when the interrupt is armed, read the control register and write it back
      with the bits set. The scratch byte holds `mask` when the control register is read. */
  function Acknowledgement(oracle: set<nat>, s: nat, mask: bv8, armed: bool, ctrl: bv8): (d: seq<Access>)
    ensures |d| == if armed then 3 else 1
    ensures d[0] == Access(RegWrite(INT_STATUS, mask), Verdict(oracle, s))
  {
    [Access(RegWrite(INT_STATUS, mask), Verdict(oracle, s))] +
    if armed then
      [Access(RegRead(INT_CONTR), Verdict(oracle, s + 1)),
       Access(RegWrite(INT_CONTR, RearmValue(Verdict(oracle, s + 1), ctrl, mask, mask)), Verdict(oracle, s + 2))]
    else []
  }

  /** What a successful interrupt check leaves in the status and control registers: the status
      bits in `mask` are cleared if that write goes through, and the control register receives the
      re-armed byte if the interrupt is armed and that write goes through. */
  lemma {:induction false} CheckedRegisters(r0: RegFile, r: RegFile, oracle: set<nat>, s: nat, mask: bv8, armed: bool)
    requires r == Commit(r0, [Access(RegRead(INT_STATUS), true)] + Acknowledgement(oracle, s + 1, mask, armed, r0[Index(INT_CONTR)]))
    ensures r[Index(INT_STATUS)] == if Verdict(oracle, s + 1) then r0[Index(INT_STATUS)] & !mask else r0[Index(INT_STATUS)]
    ensures r[Index(INT_CONTR)] ==
      if armed && Verdict(oracle, s + 3) then RearmValue(Verdict(oracle, s + 2), r0[Index(INT_CONTR)], mask, mask)
      else r0[Index(INT_CONTR)]
  {
    IndexTable();
    var ctrl := r0[Index(INT_CONTR)];
    var a0 := Access(RegRead(INT_STATUS), true);
    var a1 := Access(RegWrite(INT_STATUS, mask), Verdict(oracle, s + 1));
    var r2 := Apply(r0, a1);
    CommitTwo(r0, a0, a1);
    if armed {
      var a2 := Access(RegRead(INT_CONTR), Verdict(oracle, s + 2));
      var a3 := Access(RegWrite(INT_CONTR, RearmValue(Verdict(oracle, s + 2), ctrl, mask, mask)), Verdict(oracle, s + 3));
      assert [a0] + Acknowledgement(oracle, s + 1, mask, armed, ctrl) == [a0, a1] + [a2, a3];
      CommitAppend(r0, [a0, a1], [a2, a3]);
      CommitTwo(r2, a2, a3);
    } else {
      assert [a0] + Acknowledgement(oracle, s + 1, mask, armed, ctrl) == [a0, a1];
    }
  }

  class Vcnl4020c {
    /** The bus the chip is on. */
    const bus: RegisterBus
    /** The chip's bus address; the model's transactions do not depend on it. */
    const addr: int

    // Shadow copies of settings, initialised and never updated by any method.
    var cmdReg: bv8
    var bioSensRate: bv8
    var ledCurrent: bv8
    var alsParam: bv8
    var intCtrl: bv8
    var lowThresh: bv16
    var highThresh: bv16
    var bioSensMod: bv8

    /** The scratch byte nearly every method reads into or writes from. */
    var regValue: bv8

    /** Which interrupt kinds a start call armed. */
    var intMeasurementBio: bool
    var intMeasurementAls: bool
    var intThreshold: bool

    /** Whether an interrupt callback is registered (the callback pointer is not null). */
    var hasCallback: bool
    /** The GPIO the chip's interrupt line is wired to, -1 for none. */
    var intPin: int


    /** An interrupt callback and pin are both set, so start calls arm interrupts. */
    predicate Bound()
      reads this
    {
      hasCallback && intPin != -1
    }

    /** Both shadow thresholds are zero and threshold interrupts are not armed. */
    predicate ThresholdsUnset()
      reads this
    {
      lowThresh == 0 && highThresh == 0 && !intThreshold
    }

    /** The field initialisers of the driver object. `_alsParam` is initialised with a logical
        OR of two masks and so holds 1, not the two masks' bits. */
    constructor (bus: RegisterBus, addr: int := VCNL4020C_ADDR)
      ensures this.bus == bus && this.addr == addr
      ensures cmdReg == CONFIG_LOCK && bioSensRate == BIO_SENS_RATE_125 && ledCurrent == 10
      ensures alsParam == 1 && alsParam != CONT_CONV_ENA | AMB_SENS_RATE_10
      ensures intCtrl == 0 && bioSensMod == 1 && regValue == 0
      ensures lowThresh == 0 && highThresh == 0
      ensures !intMeasurementBio && !intMeasurementAls && !intThreshold
      ensures !hasCallback && intPin == -1 && !Bound()
      ensures ThresholdsUnset()
    {
      this.bus := bus;
      this.addr := addr;
      cmdReg := 0x80;
      bioSensRate := BIO_SENS_RATE_125;
      ledCurrent := 10;
      alsParam := if CONT_CONV_ENA != 0 || AMB_SENS_RATE_10 != 0 then 1 else 0;
      intCtrl := 0;
      lowThresh := 0;
      highThresh := 0;
      bioSensMod := 1;
      regValue := 0;
      intMeasurementBio := false;
      intMeasurementAls := false;
      intThreshold := false;
      hasCallback := false;
      intPin := -1;
    }

    /** One register write (`writeRegs` with a length of 1). */
    method WriteRegs(reg: bv8, data: bv8) returns (ok: bool)
      requires InMap(reg)
      modifies bus
      ensures ok == Verdict(bus.oracle, |old(bus.log)|)
      ensures Performed(bus, [Access(RegWrite(reg, data), ok)])
      ensures bus.regs == if ok then old(bus.regs)[Index(reg) := Stored(reg, old(bus.regs)[Index(reg)], data)]
                          else old(bus.regs)
    {
      ok := bus.Write(reg, data);
    }

    /** One register read (`readRegs` with a length of 1); the destination keeps `prior`
        when the read fails. */
    method ReadRegs(reg: bv8, prior: bv8) returns (ok: bool, data: bv8)
      requires InMap(reg)
      modifies bus
      ensures ok == Verdict(bus.oracle, |old(bus.log)|)
      ensures Performed(bus, [Access(RegRead(reg), ok)])
      ensures bus.regs == old(bus.regs)
      ensures data == if ok then old(bus.regs)[Index(reg)] else prior
    {
      var value;
      ok, value := bus.Read(reg);
      data := if ok then value else prior;
    }

    /** Identity check, then the default configuration, returning false at the first failed
        step. The identity check rejects the chip only when both nibbles are wrong. */
    method InitSensorDefault() returns (ok: bool)
      modifies this`regValue, bus
      ensures
        var s := |old(bus.log)|;
        var idRead := Verdict(bus.oracle, s);
        var idByte := old(bus.regs)[Index(PROD_ID)];
        var accepted := idRead && IdAccepted(SplitIds(idByte).0, SplitIds(idByte).1);
        && Performed(bus, [Access(RegRead(PROD_ID), idRead)]
                          + (if accepted then Chain(DEFAULT_PLAN, bus.oracle, s + 1) else []))
        && ok == (accepted && ChainOk(DEFAULT_PLAN, bus.oracle, s + 1))
        && regValue == if !idRead then old(regValue) else if !accepted then idByte else HeadScratch(bus.oracle, s + 1)
      ensures ok ==> regValue == 0
    {
      var checkID: bv8 := 0;
      var checkRev: bv8 := 0;
      var idOk;
      idOk, checkID, checkRev := GetIds(checkID, checkRev);
      if !idOk {
        return false;
      }
      if checkID != 2 && checkRev != 1 {
        return false;
      }
      ghost var l0, r0 := bus.log, bus.regs;
      ok := SetDefaults();
      Compose(old(bus.log), old(bus.regs), [Access(RegRead(PROD_ID), true)], l0, r0,
              Chain(DEFAULT_PLAN, bus.oracle, |l0|), bus.log, bus.regs);
    }

    /** The setter calls of the initialisation after the identity check, each made only when the
        one before succeeded. */
    method SetDefaults() returns (ok: bool)
      modifies this`regValue, bus
      ensures Performed(bus, Chain(DEFAULT_PLAN, bus.oracle, |old(bus.log)|))
      ensures ok == ChainOk(DEFAULT_PLAN, bus.oracle, |old(bus.log)|)
      ensures regValue == HeadScratch(bus.oracle, |old(bus.log)|)
      ensures ok ==> regValue == 0
    {
      ok := SetDefaultsHead();
      if !ok {
        StopChains(DEFAULT_HEAD, DEFAULT_TAIL, bus.oracle, |old(bus.log)|);
        return false;
      }
      ghost var l1, r1 := bus.log, bus.regs;
      ok := SetDefaultsTail();
      ComposeChains(DEFAULT_HEAD, DEFAULT_TAIL, bus.oracle, old(bus.log), old(bus.regs), l1, r1, bus.log, bus.regs);
    }

    /** The first five setter calls of the initialisation, each made only when the one before
        succeeded. */
    method SetDefaultsHead() returns (ok: bool)
      modifies this`regValue, bus
      ensures Performed(bus, Chain(DEFAULT_HEAD, bus.oracle, |old(bus.log)|))
      ensures ok == ChainOk(DEFAULT_HEAD, bus.oracle, |old(bus.log)|)
      ensures regValue == HeadScratch(bus.oracle, |old(bus.log)|)
      ensures ok ==> regValue == 0
    {
      // `done` holds the accesses made so far; the bus is at `l1`, `r1` before the next step.
      ghost var plan := DEFAULT_HEAD;
      ghost var l0, r0 := bus.log, bus.regs;
      ghost var done: seq<Access> := [];
      ghost var l1, r1 := l0, r0;
      ProgressStart(plan, bus.oracle, |l0|);
      regValue := 0;
      ok := WriteRegs(CMD_REG, regValue);
      RunStep(plan, bus.oracle, done, l0, r0, l1, r1, Access(RegWrite(CMD_REG, 0), ok), bus.log, bus.regs);
      done, l1, r1 := done + [Access(RegWrite(CMD_REG, 0), ok)], bus.log, bus.regs;
      if !ok {
        return false;
      }
      ok := SetBioDataRate(BIO_SENS_RATE_125);
      RunStep(plan, bus.oracle, done, l0, r0, l1, r1,
              Access(RegWrite(BIO_SENS_RATE, Clamp(BIO_SENS_RATE_125, BIO_SENS_RATE_250)), ok), bus.log, bus.regs);
      done, l1, r1 := done + [Access(RegWrite(BIO_SENS_RATE, Clamp(BIO_SENS_RATE_125, BIO_SENS_RATE_250)), ok)], bus.log, bus.regs;
      if !ok {
        return false;
      }
      ok := SetLedCurrent(10);
      RunStep(plan, bus.oracle, done, l0, r0, l1, r1,
              Access(RegWrite(LED_CURRENT, Clamp(10, LED_CURRENT_MAX)), ok), bus.log, bus.regs);
      done, l1, r1 := done + [Access(RegWrite(LED_CURRENT, Clamp(10, LED_CURRENT_MAX)), ok)], bus.log, bus.regs;
      if !ok {
        return false;
      }
      ok := SetAlsParam(AMB_SENS_RATE_10, AVG_CONV_1, false);
      RunStep(plan, bus.oracle, done, l0, r0, l1, r1,
              Access(RegWrite(AMBIENT_LIGHT_PARAM, PackAlsParam(AMB_SENS_RATE_10, AVG_CONV_1, false)), ok), bus.log, bus.regs);
      done, l1, r1 := done + [Access(RegWrite(AMBIENT_LIGHT_PARAM, PackAlsParam(AMB_SENS_RATE_10, AVG_CONV_1, false)), ok)], bus.log, bus.regs;
      if !ok {
        return false;
      }
      ok := SetIntControl(false, false, false, 0, INT_CNT_EXC_1);
      RunStep(plan, bus.oracle, done, l0, r0, l1, r1,
              Access(RegWrite(INT_CONTR, PackIntControl(false, false, false, 0, INT_CNT_EXC_1)), ok), bus.log, bus.regs);
      done := done + [Access(RegWrite(INT_CONTR, PackIntControl(false, false, false, 0, INT_CNT_EXC_1)), ok)];
      if !ok {
        return false;
      }
      ChainDone(plan, bus.oracle, |l0|, done);
    }

    /** The last three setter calls of the initialisation, each made only when the one before
        succeeded. */
    method SetDefaultsTail() returns (ok: bool)
      modifies this`regValue, bus
      ensures Performed(bus, Chain(DEFAULT_TAIL, bus.oracle, |old(bus.log)|))
      ensures ok == ChainOk(DEFAULT_TAIL, bus.oracle, |old(bus.log)|)
      ensures regValue == 0
    {
      ghost var low := [RegWrite(THRES_LOW_VAL_L, LowByte(0)), RegWrite(THRES_LOW_VAL_H, HighByte(0))];
      ghost var high := [RegWrite(THRES_HIGH_VAL_L, LowByte(0)), RegWrite(THRES_HIGH_VAL_H, HighByte(0))];
      ghost var last := [RegWrite(BIO_SETTINGS, HighByte(0))];
      assert DEFAULT_TAIL == low + (high + last);
      ok := SetThresholdLow(0);
      if !ok {
        StopChains(low, high + last, bus.oracle, |old(bus.log)|);
        return false;
      }
      ghost var l1, r1 := bus.log, bus.regs;
      ok := SetThresholdHigh(0);
      if !ok {
        StopChains(high, last, bus.oracle, |l1|);
        ComposeChains(low, high + last, bus.oracle, old(bus.log), old(bus.regs), l1, r1, bus.log, bus.regs);
        return false;
      }
      ghost var l2, r2 := bus.log, bus.regs;
      ok := SetBioSensMod(BIO_SETTINGS_VISHAY);
      ChainOfOne(RegWrite(BIO_SETTINGS, HighByte(0)), bus.oracle, |l2|);
      ComposeChains(high, last, bus.oracle, l1, r1, l2, r2, bus.log, bus.regs);
      ComposeChains(low, high + last, bus.oracle, old(bus.log), old(bus.regs), l1, r1, bus.log, bus.regs);
    }

    /** Reads the command register into the caller's byte. */
    method GetCmdReg(prior: bv8) returns (ok: bool, cmdVal: bv8)
      modifies bus
      ensures ok == Verdict(bus.oracle, |old(bus.log)|)
      ensures Performed(bus, [Access(RegRead(CMD_REG), ok)])
      ensures cmdVal == if ok then old(bus.regs)[Index(CMD_REG)] else prior
    {
      ok, cmdVal := ReadRegs(CMD_REG, prior);
    }

    /** True iff the command register was read and its ambient-light data-ready bit is set. */
    method AlsDataReady() returns (ready: bool)
      modifies this`regValue, bus
      ensures var ok := Verdict(bus.oracle, |old(bus.log)|);
        && Performed(bus, [Access(RegRead(CMD_REG), ok)])
        && regValue == (if ok then old(bus.regs)[Index(CMD_REG)] else old(regValue))
        && ready == (ok && regValue & ALS_DATA_READY == ALS_DATA_READY)
    {
      var ok;
      ok, regValue := ReadRegs(CMD_REG, regValue);
      if ok {
        if regValue & ALS_DATA_READY == ALS_DATA_READY {
          return true;
        }
      }
      return false;
    }

    /** True iff the command register was read and its biosensor data-ready bit is set. */
    method BioDataReady() returns (ready: bool)
      modifies this`regValue, bus
      ensures var ok := Verdict(bus.oracle, |old(bus.log)|);
        && Performed(bus, [Access(RegRead(CMD_REG), ok)])
        && regValue == (if ok then old(bus.regs)[Index(CMD_REG)] else old(regValue))
        && ready == (ok && regValue & BIO_DATA_READY == BIO_DATA_READY)
    {
      var ok;
      ok, regValue := ReadRegs(CMD_REG, regValue);
      if ok {
        if regValue & BIO_DATA_READY == BIO_DATA_READY {
          return true;
        }
      }
      return false;
    }

    /** On-demand measurement. With an interrupt bound it arms the interrupts of the requested
        channels (and the threshold interrupt when both shadow thresholds are non-zero) and
        writes only the control register; otherwise it writes only the command register. */
    method StartSingle(bio: bool := true, als: bool := false) returns (ok: bool)
      modifies this`regValue, this`intMeasurementBio, this`intMeasurementAls, this`intThreshold, bus
      ensures ok == Verdict(bus.oracle, |old(bus.log)|)
      ensures Bound() ==>
        var thresholds := lowThresh != 0 && highThresh != 0;
        && regValue == ArmingByte(bio, als, thresholds)
        && Performed(bus, [Access(RegWrite(INT_CONTR, regValue), ok)])
        && intMeasurementBio == (old(intMeasurementBio) || bio)
        && intMeasurementAls == (old(intMeasurementAls) || als)
        && intThreshold == (old(intThreshold) || thresholds)
      ensures !Bound() ==>
        && regValue == SingleCommand(bio, als)
        && Performed(bus, [Access(RegWrite(CMD_REG, regValue), ok)])
        && intMeasurementBio == old(intMeasurementBio)
        && intMeasurementAls == old(intMeasurementAls)
        && intThreshold == old(intThreshold)
      ensures old(ThresholdsUnset()) ==> ThresholdsUnset()
    {
      if hasCallback && intPin != -1 {
        ok := ArmInterrupts(bio, als);
        return;
      }
      // The byte is built up in a local, then stored into the scratch byte.
      var v: bv8 := 0;
      if bio {
        v := v | START_BIO_MES;
      }
      ghost var withBio := v;
      if als {
        v := v | START_ALS_MES;
      }
      SingleCommandStepwise(bio, als, withBio, v);
      regValue := v & SELF_TIMED_DIS;
      ok := WriteRegs(CMD_REG, regValue);
    }

    /**
     * The block both start calls run when an interrupt is bound: it ORs into the scratch byte
     * the enable of each requested channel and, when both shadow thresholds are non-zero, the
     * threshold enable, records each kind it arms, and writes the byte to the control register.
     */
    method ArmInterrupts(bio: bool, als: bool) returns (ok: bool)
      modifies this`regValue, this`intMeasurementBio, this`intMeasurementAls, this`intThreshold, bus
      ensures ok == Verdict(bus.oracle, |old(bus.log)|)
      ensures regValue == ArmingByte(bio, als, lowThresh != 0 && highThresh != 0)
      ensures Performed(bus, [Access(RegWrite(INT_CONTR, regValue), ok)])
      ensures intMeasurementBio == (old(intMeasurementBio) || bio)
      ensures intMeasurementAls == (old(intMeasurementAls) || als)
      ensures intThreshold == (old(intThreshold) || (lowThresh != 0 && highThresh != 0))
    {
      var v: bv8 := 0;
      if bio {
        v := v | INT_BS_RDY_ENA;
        intMeasurementBio := true;
      }
      ghost var withBio := v;
      if als {
        v := v | INT_ALS_RDY_ENA;
        intMeasurementAls := true;
      }
      ghost var withAls := v;
      if lowThresh != 0 && highThresh != 0 {
        v := v | INT_THRES_ENA;
        intThreshold := true;
      }
      ArmingByteStepwise(bio, als, lowThresh != 0 && highThresh != 0, withBio, withAls, v);
      regValue := v;
      ok := WriteRegs(INT_CONTR, regValue);
    }

    /** Periodic measurement. With an interrupt bound it first arms the interrupts as
        StartSingle does and gives up if that write fails; then it writes the self-timed
        command. */
    method StartContinuous(bio: bool := true, als: bool := false) returns (ok: bool)
      modifies this`regValue, this`intMeasurementBio, this`intMeasurementAls, this`intThreshold, bus
      ensures Bound() ==>
        var s := |old(bus.log)|;
        var thresholds := lowThresh != 0 && highThresh != 0;
        var plan := [RegWrite(INT_CONTR, ArmingByte(bio, als, thresholds)), RegWrite(CMD_REG, ContinuousCommand(bio, als))];
        && Performed(bus, Chain(plan, bus.oracle, s))
        && ok == ChainOk(plan, bus.oracle, s)
        && regValue == (if Verdict(bus.oracle, s) then ContinuousCommand(bio, als) else ArmingByte(bio, als, thresholds))
        && intMeasurementBio == (old(intMeasurementBio) || bio)
        && intMeasurementAls == (old(intMeasurementAls) || als)
        && intThreshold == (old(intThreshold) || thresholds)
      ensures !Bound() ==>
        && ok == Verdict(bus.oracle, |old(bus.log)|)
        && regValue == ContinuousCommand(bio, als)
        && Performed(bus, [Access(RegWrite(CMD_REG, regValue), ok)])
        && intMeasurementBio == old(intMeasurementBio)
        && intMeasurementAls == old(intMeasurementAls)
        && intThreshold == old(intThreshold)
      ensures old(ThresholdsUnset()) ==> ThresholdsUnset()
    {
      ghost var bound := hasCallback && intPin != -1;
      ghost var a0: Access;
      ghost var l1, r1 := bus.log, bus.regs;
      if hasCallback && intPin != -1 {
        ok := ArmInterrupts(bio, als);
        a0 := Access(RegWrite(INT_CONTR, regValue), ok);
        l1, r1 := bus.log, bus.regs;
        ChainOfTwo(a0.req, RegWrite(CMD_REG, ContinuousCommand(bio, als)), bus.oracle, |old(bus.log)|);
        if !ok {
          return false;
        }
      }
      // The byte is built up in a local, then stored into the scratch byte.
      var v: bv8 := 0;
      if bio {
        v := v | PER_BIO_MEAS_EN;
      }
      ghost var withBio := v;
      if als {
        v := v | PER_ALS_MEAS_EN;
      }
      ContinuousCommandStepwise(bio, als, withBio, v);
      regValue := v | SELF_TIMED_EN;
      ok := WriteRegs(CMD_REG, regValue);
      if bound {
        ghost var a1 := Access(RegWrite(CMD_REG, regValue), ok);
        Compose(old(bus.log), old(bus.regs), [a0], l1, r1, [a1], bus.log, bus.regs);
        assert [a0] + [a1] == [a0, a1];
      }
    }

    /** Stops periodic measurement. With an interrupt bound it first writes 0 to the status
        register (which clears no status bit) and gives up if that write fails; otherwise it
        disarms all three interrupt kinds and writes 0 to the command register. */
    method StopContinuous() returns (ok: bool)
      modifies this`regValue, this`intMeasurementBio, this`intMeasurementAls, this`intThreshold, bus
      ensures regValue == 0
      ensures Bound() ==>
        var s := |old(bus.log)|;
        var plan := [RegWrite(INT_STATUS, 0), RegWrite(CMD_REG, 0)];
        && Performed(bus, Chain(plan, bus.oracle, s))
        && ok == ChainOk(plan, bus.oracle, s)
        && (Verdict(bus.oracle, s) ==> !intMeasurementBio && !intMeasurementAls && !intThreshold)
        && (!Verdict(bus.oracle, s) ==>
              intMeasurementBio == old(intMeasurementBio) && intMeasurementAls == old(intMeasurementAls)
              && intThreshold == old(intThreshold))
      ensures !Bound() ==>
        && ok == Verdict(bus.oracle, |old(bus.log)|)
        && Performed(bus, [Access(RegWrite(CMD_REG, 0), ok)])
        && !intMeasurementBio && !intMeasurementAls && !intThreshold
      ensures bus.regs[Index(INT_STATUS)] == old(bus.regs)[Index(INT_STATUS)]
      ensures old(ThresholdsUnset()) ==> ThresholdsUnset()
    {
      IndexTable();
      ghost var bound := hasCallback && intPin != -1;
      ghost var a0: Access;
      ghost var l1, r1 := bus.log, bus.regs;
      regValue := 0;
      if hasCallback && intPin != -1 {
        ok := WriteRegs(INT_STATUS, regValue);
        a0 := Access(RegWrite(INT_STATUS, regValue), ok);
        l1, r1 := bus.log, bus.regs;
        ChainOfTwo(a0.req, RegWrite(CMD_REG, 0), bus.oracle, |old(bus.log)|);
        assert r1[Index(INT_STATUS)] == old(bus.regs)[Index(INT_STATUS)];
        if !ok {
          return false;
        }
      }
      intMeasurementBio := false;
      intMeasurementAls := false;
      intThreshold := false;
      regValue := 0;
      ok := WriteRegs(CMD_REG, regValue);
      if bound {
        ghost var a1 := Access(RegWrite(CMD_REG, regValue), ok);
        Compose(old(bus.log), old(bus.regs), [a0], l1, r1, [a1], bus.log, bus.regs);
        assert [a0] + [a1] == [a0, a1];
      }
    }

    /** Reads the ID byte and splits it into product ID and revision ID; on a failed read the
        caller's bytes keep their values. */
    method GetIds(prodPrior: bv8, revPrior: bv8) returns (ok: bool, prodID: bv8, revID: bv8)
      modifies this`regValue, bus
      ensures ok == Verdict(bus.oracle, |old(bus.log)|)
      ensures Performed(bus, [Access(RegRead(PROD_ID), ok)])
      ensures ok ==> regValue == old(bus.regs)[Index(PROD_ID)] && (prodID, revID) == SplitIds(regValue)
      ensures !ok ==> regValue == old(regValue) && prodID == prodPrior && revID == revPrior
    {
      ok, regValue := ReadRegs(PROD_ID, regValue);
      if !ok {
        return false, prodPrior, revPrior;
      }
      prodID := regValue >> 4;
      revID := regValue & 0x0F;
    }

    /** Writes the biosensor rate, clamped to the largest rate code. */
    method SetBioDataRate(dataRate: bv8) returns (ok: bool)
      modifies bus
      ensures ok == Verdict(bus.oracle, |old(bus.log)|)
      ensures Performed(bus, [Access(RegWrite(BIO_SENS_RATE, Clamp(dataRate, BIO_SENS_RATE_250)), ok)])
    {
      var rate := dataRate;
      if rate > BIO_SENS_RATE_250 {
        rate := BIO_SENS_RATE_250;
      }
      ok := WriteRegs(BIO_SENS_RATE, rate);
    }

    /** Reads the biosensor rate register into the caller's byte. */
    method GetBioDataRate(prior: bv8) returns (ok: bool, dataRate: bv8)
      modifies bus
      ensures ok == Verdict(bus.oracle, |old(bus.log)|)
      ensures Performed(bus, [Access(RegRead(BIO_SENS_RATE), ok)])
      ensures dataRate == if ok then old(bus.regs)[Index(BIO_SENS_RATE)] else prior
    {
      ok, dataRate := ReadRegs(BIO_SENS_RATE, prior);
    }

    /** Writes the LED current code, clamped to 20 (200 mA). */
    method SetLedCurrent(ledCurrent: bv8) returns (ok: bool)
      modifies bus
      ensures ok == Verdict(bus.oracle, |old(bus.log)|)
      ensures Performed(bus, [Access(RegWrite(LED_CURRENT, Clamp(ledCurrent, LED_CURRENT_MAX)), ok)])
    {
      var current := ledCurrent;
      if current > LED_CURRENT_MAX {
        current := LED_CURRENT_MAX;
      }
      ok := WriteRegs(LED_CURRENT, current);
    }

    /** The LED current field of the LED register. A failed read is not reported: the result
        is then the current-field bits of whatever the scratch byte held. */
    method GetLedCurrent() returns (current: bv8)
      modifies this`regValue, bus
      ensures var ok := Verdict(bus.oracle, |old(bus.log)|);
        && Performed(bus, [Access(RegRead(LED_CURRENT), ok)])
        && current == (if ok then old(bus.regs)[Index(LED_CURRENT)] else old(regValue)) & CURRENT_MASK
      ensures current & FUSE_MASK == 0
      ensures regValue == current
    {
      var ok;
      ok, regValue := ReadRegs(LED_CURRENT, regValue);
      regValue := regValue & 0x3F;
      return regValue;
    }

    /** Writes the ambient-light parameters packed into one byte; continuous conversion is
        never requested. */
    method SetAlsParam(dataRate: bv8, avgConv: bv8, offsetComp: bool := true) returns (ok: bool)
      modifies this`regValue, bus
      ensures ok == Verdict(bus.oracle, |old(bus.log)|)
      ensures regValue == PackAlsParam(dataRate, avgConv, offsetComp)
      ensures Performed(bus, [Access(RegWrite(AMBIENT_LIGHT_PARAM, regValue), ok)])
    {
      // The byte is built up in a local, then stored into the scratch byte.
      var v: bv8 := 0;
      var rate := dataRate;
      var avg := avgConv;
      if rate > AMB_SENS_RATE_10 {
        rate := AMB_SENS_RATE_10;
      }
      if avg > AVG_CONV_128 {
        avg := AVG_CONV_128;
      }
      if offsetComp {
        v := v | AUTO_COMP_ENA;
      }
      PackAlsParamStepwise(dataRate, avgConv, offsetComp, v, rate, avg);
      regValue := v | rate | avg;
      ok := WriteRegs(AMBIENT_LIGHT_PARAM, regValue);
    }

    /** Reads the ambient-light parameter register into the caller's byte. */
    method GetAlsParam(prior: bv8) returns (ok: bool, alsParam: bv8)
      modifies bus
      ensures ok == Verdict(bus.oracle, |old(bus.log)|)
      ensures Performed(bus, [Access(RegRead(AMBIENT_LIGHT_PARAM), ok)])
      ensures alsParam == if ok then old(bus.regs)[Index(AMBIENT_LIGHT_PARAM)] else prior
    {
      ok, alsParam := ReadRegs(AMBIENT_LIGHT_PARAM, prior);
    }

    /** A 16-bit result read low byte first, then high byte; 0xFFFF if either read fails. */
    method ReadResult(regLow: bv8, regHigh: bv8) returns (value: bv16)
      requires InMap(regLow) && InMap(regHigh)
      modifies bus
      ensures var s := |old(bus.log)|;
        var plan := [RegRead(regLow), RegRead(regHigh)];
        && Performed(bus, Chain(plan, bus.oracle, s))
        && value == if ChainOk(plan, bus.oracle, s)
                    then Join16(old(bus.regs)[Index(regHigh)], old(bus.regs)[Index(regLow)])
                    else 0xFFFF
    {
      var valHi: bv8 := 0;
      var valLo: bv8 := 0;
      var ok;
      ok, valLo := ReadRegs(regLow, valLo);
      ghost var a0 := Access(RegRead(regLow), ok);
      ghost var l1, r1 := bus.log, bus.regs;
      ChainOfTwo(a0.req, RegRead(regHigh), bus.oracle, |old(bus.log)|);
      if !ok {
        return 0xFFFF;
      }
      ok, valHi := ReadRegs(regHigh, valHi);
      ghost var a1 := Access(RegRead(regHigh), ok);
      Compose(old(bus.log), old(bus.regs), [a0], l1, r1, [a1], bus.log, bus.regs);
      assert [a0] + [a1] == [a0, a1];
      if !ok {
        return 0xFFFF;
      }
      return Join16(valHi, valLo);
    }

    /** The ambient-light result, or 0xFFFF when a read fails. */
    method GetAlsValue() returns (value: bv16)
      modifies bus
      ensures var s := |old(bus.log)|;
        var plan := [RegRead(AMB_RESULT_L), RegRead(AMB_RESULT_H)];
        && Performed(bus, Chain(plan, bus.oracle, s))
        && value == if ChainOk(plan, bus.oracle, s)
                    then Join16(old(bus.regs)[Index(AMB_RESULT_H)], old(bus.regs)[Index(AMB_RESULT_L)])
                    else 0xFFFF
    {
      value := ReadResult(AMB_RESULT_L, AMB_RESULT_H);
    }

    /** The biosensor result, or 0xFFFF when a read fails. */
    method GetBioValue() returns (value: bv16)
      modifies bus
      ensures var s := |old(bus.log)|;
        var plan := [RegRead(BIO_RESULT_L), RegRead(BIO_RESULT_H)];
        && Performed(bus, Chain(plan, bus.oracle, s))
        && value == if ChainOk(plan, bus.oracle, s)
                    then Join16(old(bus.regs)[Index(BIO_RESULT_H)], old(bus.regs)[Index(BIO_RESULT_L)])
                    else 0xFFFF
    {
      value := ReadResult(BIO_RESULT_L, BIO_RESULT_H);
    }

    /** Writes the interrupt control byte: enables, threshold select and clamped count. */
    method SetIntControl(bioEna: bool, alsEna: bool, thresEna: bool, thresSel: bv8, thresCount: bv8) returns (ok: bool)
      modifies this`regValue, bus
      ensures ok == Verdict(bus.oracle, |old(bus.log)|)
      ensures regValue == PackIntControl(bioEna, alsEna, thresEna, thresSel, thresCount)
      ensures Performed(bus, [Access(RegWrite(INT_CONTR, regValue), ok)])
    {
      // The byte is built up in a local, then stored into the scratch byte.
      var v: bv8 := 0;
      if bioEna {
        v := v | INT_BS_RDY_ENA;
      }
      ghost var bio := v;
      if alsEna {
        v := v | INT_ALS_RDY_ENA;
      }
      ghost var als := v;
      if thresEna {
        v := v | INT_THRES_ENA;
      }
      ghost var thres := v;
      if thresSel == INT_THRES_BIO {
        v := v | INT_THRES_BIO;
      } else {
        v := v | INT_THRES_ALS;
      }
      var count := thresCount;
      if count > INT_CNT_EXC_128 {
        count := INT_CNT_EXC_128;
      }
      PackIntControlStepwise(bioEna, alsEna, thresEna, thresSel, thresCount, bio, als, thres, v, count);
      regValue := v | count;
      ok := WriteRegs(INT_CONTR, regValue);
    }

    /** Reads the interrupt control register into the caller's byte. */
    method GetIntControl(prior: bv8) returns (ok: bool, intCntrl: bv8)
      modifies bus
      ensures ok == Verdict(bus.oracle, |old(bus.log)|)
      ensures Performed(bus, [Access(RegRead(INT_CONTR), ok)])
      ensures bus.regs == old(bus.regs)
      ensures intCntrl == if ok then old(bus.regs)[Index(INT_CONTR)] else prior
    {
      ok, intCntrl := ReadRegs(INT_CONTR, prior);
    }

    /** Writes the low threshold, low byte first; a failed first write skips the second. */
    method SetThresholdLow(threshold: bv16) returns (ok: bool)
      modifies this`regValue, bus
      ensures var s := |old(bus.log)|;
        var plan := [RegWrite(THRES_LOW_VAL_L, LowByte(threshold)), RegWrite(THRES_LOW_VAL_H, HighByte(threshold))];
        && Performed(bus, Chain(plan, bus.oracle, s))
        && ok == ChainOk(plan, bus.oracle, s)
        && regValue == if Verdict(bus.oracle, s) then HighByte(threshold) else LowByte(threshold)
    {
      regValue := LowByte(threshold);
      ok := WriteRegs(THRES_LOW_VAL_L, regValue);
      ghost var a0 := Access(RegWrite(THRES_LOW_VAL_L, regValue), ok);
      ghost var l1, r1 := bus.log, bus.regs;
      ChainOfTwo(a0.req, RegWrite(THRES_LOW_VAL_H, HighByte(threshold)), bus.oracle, |old(bus.log)|);
      if !ok {
        return false;
      }
      regValue := HighByte(threshold);
      ok := WriteRegs(THRES_LOW_VAL_H, regValue);
      ghost var a1 := Access(RegWrite(THRES_LOW_VAL_H, regValue), ok);
      Compose(old(bus.log), old(bus.regs), [a0], l1, r1, [a1], bus.log, bus.regs);
      assert [a0] + [a1] == [a0, a1];
    }

    /** Writes the high threshold, low byte first; a failed first write skips the second. */
    method SetThresholdHigh(threshold: bv16) returns (ok: bool)
      modifies this`regValue, bus
      ensures var s := |old(bus.log)|;
        var plan := [RegWrite(THRES_HIGH_VAL_L, LowByte(threshold)), RegWrite(THRES_HIGH_VAL_H, HighByte(threshold))];
        && Performed(bus, Chain(plan, bus.oracle, s))
        && ok == ChainOk(plan, bus.oracle, s)
        && regValue == if Verdict(bus.oracle, s) then HighByte(threshold) else LowByte(threshold)
    {
      regValue := LowByte(threshold);
      ok := WriteRegs(THRES_HIGH_VAL_L, regValue);
      ghost var a0 := Access(RegWrite(THRES_HIGH_VAL_L, regValue), ok);
      ghost var l1, r1 := bus.log, bus.regs;
      ChainOfTwo(a0.req, RegWrite(THRES_HIGH_VAL_H, HighByte(threshold)), bus.oracle, |old(bus.log)|);
      if !ok {
        return false;
      }
      regValue := HighByte(threshold);
      ok := WriteRegs(THRES_HIGH_VAL_H, regValue);
      ghost var a1 := Access(RegWrite(THRES_HIGH_VAL_H, regValue), ok);
      Compose(old(bus.log), old(bus.regs), [a0], l1, r1, [a1], bus.log, bus.regs);
      assert [a0] + [a1] == [a0, a1];
    }

    /** Reads both thresholds, each low byte first, returning false at the first failed read.
        The low threshold is stored as soon as its two bytes are read. */
    method GetThresholds(highPrior: bv16, lowPrior: bv16) returns (ok: bool, thresholdHigh: bv16, thresholdLow: bv16)
      modifies bus
      ensures var s := |old(bus.log)|;
        var r := old(bus.regs);
        && Performed(bus, Chain(THRESHOLD_READS, bus.oracle, s))
        && ok == ChainOk(THRESHOLD_READS, bus.oracle, s)
        && thresholdLow == (if Verdict(bus.oracle, s) && Verdict(bus.oracle, s + 1)
                            then Join16(r[Index(THRES_LOW_VAL_H)], r[Index(THRES_LOW_VAL_L)])
                            else lowPrior)
        && thresholdHigh == (if ok
                             then Join16(r[Index(THRES_HIGH_VAL_H)], r[Index(THRES_HIGH_VAL_L)])
                             else highPrior)
    {
      IndexTable();
      // `done` holds the reads made so far; the bus is at `l1`, `r1` before the next one.
      ghost var plan := THRESHOLD_READS;
      ghost var done: seq<Access> := [];
      ghost var l1, r1 := bus.log, bus.regs;
      ghost var s, r := |l1|, bus.regs;
      ProgressStart(plan, bus.oracle, s);
      thresholdHigh, thresholdLow := highPrior, lowPrior;
      var lowByte: bv8 := 0;
      var highByte: bv8 := 0;
      ok, lowByte := ReadRegs(THRES_LOW_VAL_L, lowByte);
      RunStep(plan, bus.oracle, done, old(bus.log), old(bus.regs), l1, r1, Access(plan[0], ok), bus.log, bus.regs);
      done, l1, r1 := done + [Access(plan[0], ok)], bus.log, bus.regs;
      assert ok == Verdict(bus.oracle, s) && bus.regs == r;
      if !ok {
        return;
      }
      ok, highByte := ReadRegs(THRES_LOW_VAL_H, highByte);
      RunStep(plan, bus.oracle, done, old(bus.log), old(bus.regs), l1, r1, Access(plan[1], ok), bus.log, bus.regs);
      done, l1, r1 := done + [Access(plan[1], ok)], bus.log, bus.regs;
      assert ok == Verdict(bus.oracle, s + 1) && bus.regs == r;
      if !ok {
        return;
      }
      thresholdLow := Join16(highByte, lowByte);
      ok, lowByte := ReadRegs(THRES_HIGH_VAL_L, lowByte);
      RunStep(plan, bus.oracle, done, old(bus.log), old(bus.regs), l1, r1, Access(plan[2], ok), bus.log, bus.regs);
      done, l1, r1 := done + [Access(plan[2], ok)], bus.log, bus.regs;
      assert ok == Verdict(bus.oracle, s + 2) && bus.regs == r;
      if !ok {
        return;
      }
      ok, highByte := ReadRegs(THRES_HIGH_VAL_H, highByte);
      RunStep(plan, bus.oracle, done, old(bus.log), old(bus.regs), l1, r1, Access(plan[3], ok), bus.log, bus.regs);
      done, l1, r1 := done + [Access(plan[3], ok)], bus.log, bus.regs;
      assert ok == Verdict(bus.oracle, s + 3) && bus.regs == r;
      if !ok {
        return;
      }
      thresholdHigh := Join16(highByte, lowByte);
      ChainDone(plan, bus.oracle, |old(bus.log)|, done);
    }

    /** Reads the interrupt status register into the caller's byte. */
    method CheckInterrupts(prior: bv8) returns (ok: bool, intStatus: bv8)
      modifies bus
      ensures ok == Verdict(bus.oracle, |old(bus.log)|)
      ensures Performed(bus, [Access(RegRead(INT_STATUS), ok)])
      ensures bus.regs == old(bus.regs)
      ensures intStatus == if ok then old(bus.regs)[Index(INT_STATUS)] else prior
    {
      ok, intStatus := ReadRegs(INT_STATUS, prior);
    }

    /**
     * The body the four interrupt checks share. It reads the status register and, when the
     * bit `mask` is set, writes `mask` back to clear it and, when `armed`, reads the control
     * register and writes it back with `mask` ORed in. The result is whether the read
     * succeeded and the bit was set; the writes and the control read do not affect it. When
     * the control read fails the scratch byte still holds `mask`, so the control register is
     * overwritten with `mask` alone.
     */
    method CheckInt(mask: bv8, armed: bool) returns (hit: bool)
      modifies this`regValue, bus
      ensures hit == (Verdict(bus.oracle, |old(bus.log)|) && Raised(old(bus.regs)[Index(INT_STATUS)], mask))
      ensures !hit ==>
        var readOk := Verdict(bus.oracle, |old(bus.log)|);
        && Performed(bus, [Access(RegRead(INT_STATUS), readOk)])
        && bus.regs == old(bus.regs)
        && regValue == if readOk then old(bus.regs)[Index(INT_STATUS)] else old(regValue)
      ensures hit ==>
        var s, ctrl := |old(bus.log)|, old(bus.regs)[Index(INT_CONTR)];
        && Performed(bus, [Access(RegRead(INT_STATUS), true)] + Acknowledgement(bus.oracle, s + 1, mask, armed, ctrl))
        && regValue == if armed then RearmValue(Verdict(bus.oracle, s + 2), ctrl, mask, mask) else mask
    {
      var ok;
      ok, regValue := CheckInterrupts(regValue);
      if !ok {
        return false;
      }
      if Raised(regValue, mask) {
        ghost var l1, r1 := bus.log, bus.regs;
        Acknowledge(mask, armed);
        Compose(old(bus.log), old(bus.regs), [Access(RegRead(INT_STATUS), true)], l1, r1,
                Acknowledgement(bus.oracle, |l1|, mask, armed, r1[Index(INT_CONTR)]), bus.log, bus.regs);
        return true;
      }
      return false;
    }

    /**
     * The branch the four checks take when their status bit is set: `mask` is written to the
     * status register, which clears that bit, and, when `armed`, the control register is read
     * into the scratch byte and written back with `mask` ORed in.
     */
    method Acknowledge(mask: bv8, armed: bool)
      modifies this`regValue, bus
      ensures regValue ==
        if armed then RearmValue(Verdict(bus.oracle, |old(bus.log)| + 1), old(bus.regs)[Index(INT_CONTR)], mask, mask)
        else mask
      ensures Performed(bus, Acknowledgement(bus.oracle, |old(bus.log)|, mask, armed, old(bus.regs)[Index(INT_CONTR)]))
    {
      IndexTable();
      regValue := mask;
      var cleared := WriteRegs(INT_STATUS, regValue);
      if armed {
        ghost var l1, r1 := bus.log, bus.regs;
        Rearm(mask);
        ghost var a1 := Access(RegWrite(INT_STATUS, mask), cleared);
        ghost var a2 := Access(RegRead(INT_CONTR), Verdict(bus.oracle, |l1|));
        ghost var a3 := Access(RegWrite(INT_CONTR, regValue), Verdict(bus.oracle, |l1| + 1));
        Compose(old(bus.log), old(bus.regs), [a1], l1, r1, [a2, a3], bus.log, bus.regs);
        assert [a1] + [a2, a3] == [a1, a2, a3];
      }
    }

    /**
     * The re-arm of an interrupt: the control register is read into the scratch byte, `mask`
     * is ORed in and the byte is written back. A failed read leaves the scratch byte as it was.
     */
    method Rearm(mask: bv8)
      modifies this`regValue, bus
      ensures regValue == RearmValue(Verdict(bus.oracle, |old(bus.log)|), old(bus.regs)[Index(INT_CONTR)], old(regValue), mask)
      ensures Performed(bus, [Access(RegRead(INT_CONTR), Verdict(bus.oracle, |old(bus.log)|)),
                              Access(RegWrite(INT_CONTR, regValue), Verdict(bus.oracle, |old(bus.log)| + 1))])
    {
      var ok;
      ok, regValue := GetIntControl(regValue);
      ghost var l1, r1 := bus.log, bus.regs;
      regValue := regValue | mask;
      var rearmed := WriteRegs(INT_CONTR, regValue);
      ghost var a2 := Access(RegRead(INT_CONTR), ok);
      ghost var a3 := Access(RegWrite(INT_CONTR, regValue), rearmed);
      Compose(old(bus.log), old(bus.regs), [a2], l1, r1, [a3], bus.log, bus.regs);
      assert [a2] + [a3] == [a2, a3];
    }

    /** Biosensor data-ready interrupt: tests and clears status bit 3, re-arming it when a
        start call armed biosensor interrupts. */
    method CheckBioInt() returns (hit: bool)
      modifies this`regValue, bus
      ensures hit == (Verdict(bus.oracle, |old(bus.log)|) && Raised(old(bus.regs)[Index(INT_STATUS)], INT_BIO_RDY))
      ensures !hit ==> Performed(bus, [Access(RegRead(INT_STATUS), Verdict(bus.oracle, |old(bus.log)|))])
      ensures hit ==> Performed(bus, [Access(RegRead(INT_STATUS), true)]
                                     + Acknowledgement(bus.oracle, |old(bus.log)| + 1, INT_BIO_RDY, intMeasurementBio, old(bus.regs)[Index(INT_CONTR)]))
      ensures !hit ==> bus.regs == old(bus.regs)
      ensures hit && Verdict(bus.oracle, |old(bus.log)| + 1) ==>
        bus.regs[Index(INT_STATUS)] == old(bus.regs)[Index(INT_STATUS)] & !INT_BIO_RDY
      ensures hit && intMeasurementBio && Verdict(bus.oracle, |old(bus.log)| + 3) ==>
        bus.regs[Index(INT_CONTR)] ==
          (if Verdict(bus.oracle, |old(bus.log)| + 2) then old(bus.regs)[Index(INT_CONTR)] else INT_BIO_RDY) | INT_BIO_RDY
      ensures !intMeasurementBio || !hit ==> bus.regs[Index(INT_CONTR)] == old(bus.regs)[Index(INT_CONTR)]
      ensures regValue ==
        if !hit then (if Verdict(bus.oracle, |old(bus.log)|) then old(bus.regs)[Index(INT_STATUS)] else old(regValue))
        else if intMeasurementBio then RearmValue(Verdict(bus.oracle, |old(bus.log)| + 2), old(bus.regs)[Index(INT_CONTR)], INT_BIO_RDY, INT_BIO_RDY)
        else INT_BIO_RDY
    {
      hit := CheckInt(INT_BIO_RDY, intMeasurementBio);
      if hit {
        CheckedRegisters(old(bus.regs), bus.regs, bus.oracle, |old(bus.log)|, INT_BIO_RDY, intMeasurementBio);
      }
    }

    /** Ambient-light data-ready interrupt: tests and clears status bit 2, re-arming it when a
        start call armed ambient-light interrupts. */
    method CheckAlsInt() returns (hit: bool)
      modifies this`regValue, bus
      ensures hit == (Verdict(bus.oracle, |old(bus.log)|) && Raised(old(bus.regs)[Index(INT_STATUS)], INT_ALS_RDY))
      ensures !hit ==> Performed(bus, [Access(RegRead(INT_STATUS), Verdict(bus.oracle, |old(bus.log)|))])
      ensures hit ==> Performed(bus, [Access(RegRead(INT_STATUS), true)]
                                     + Acknowledgement(bus.oracle, |old(bus.log)| + 1, INT_ALS_RDY, intMeasurementAls, old(bus.regs)[Index(INT_CONTR)]))
      ensures !hit ==> bus.regs == old(bus.regs)
      ensures hit && Verdict(bus.oracle, |old(bus.log)| + 1) ==>
        bus.regs[Index(INT_STATUS)] == old(bus.regs)[Index(INT_STATUS)] & !INT_ALS_RDY
      ensures hit && intMeasurementAls && Verdict(bus.oracle, |old(bus.log)| + 3) ==>
        bus.regs[Index(INT_CONTR)] ==
          (if Verdict(bus.oracle, |old(bus.log)| + 2) then old(bus.regs)[Index(INT_CONTR)] else INT_ALS_RDY) | INT_ALS_RDY
      ensures !intMeasurementAls || !hit ==> bus.regs[Index(INT_CONTR)] == old(bus.regs)[Index(INT_CONTR)]
      ensures regValue ==
        if !hit then (if Verdict(bus.oracle, |old(bus.log)|) then old(bus.regs)[Index(INT_STATUS)] else old(regValue))
        else if intMeasurementAls then RearmValue(Verdict(bus.oracle, |old(bus.log)| + 2), old(bus.regs)[Index(INT_CONTR)], INT_ALS_RDY, INT_ALS_RDY)
        else INT_ALS_RDY
    {
      hit := CheckInt(INT_ALS_RDY, intMeasurementAls);
      if hit {
        CheckedRegisters(old(bus.regs), bus.regs, bus.oracle, |old(bus.log)|, INT_ALS_RDY, intMeasurementAls);
      }
    }

    /** Low-threshold interrupt: tests and clears status bit 1, re-arming the threshold enable
        when a start call armed threshold interrupts. */
    method CheckThreshLowInt() returns (hit: bool)
      modifies this`regValue, bus
      ensures hit == (Verdict(bus.oracle, |old(bus.log)|) && Raised(old(bus.regs)[Index(INT_STATUS)], INT_TH_LOW_RDY))
      ensures !hit ==> Performed(bus, [Access(RegRead(INT_STATUS), Verdict(bus.oracle, |old(bus.log)|))])
      ensures hit ==> Performed(bus, [Access(RegRead(INT_STATUS), true)]
                                     + Acknowledgement(bus.oracle, |old(bus.log)| + 1, INT_TH_LOW_RDY, intThreshold, old(bus.regs)[Index(INT_CONTR)]))
      ensures !hit ==> bus.regs == old(bus.regs)
      ensures hit && Verdict(bus.oracle, |old(bus.log)| + 1) ==>
        bus.regs[Index(INT_STATUS)] == old(bus.regs)[Index(INT_STATUS)] & !INT_TH_LOW_RDY
      ensures hit && intThreshold && Verdict(bus.oracle, |old(bus.log)| + 3) ==>
        bus.regs[Index(INT_CONTR)] ==
          (if Verdict(bus.oracle, |old(bus.log)| + 2) then old(bus.regs)[Index(INT_CONTR)] else INT_THRES_ENA) | INT_THRES_ENA
      ensures !intThreshold || !hit ==> bus.regs[Index(INT_CONTR)] == old(bus.regs)[Index(INT_CONTR)]
      ensures regValue ==
        if !hit then (if Verdict(bus.oracle, |old(bus.log)|) then old(bus.regs)[Index(INT_STATUS)] else old(regValue))
        else if intThreshold then RearmValue(Verdict(bus.oracle, |old(bus.log)| + 2), old(bus.regs)[Index(INT_CONTR)], INT_TH_LOW_RDY, INT_TH_LOW_RDY)
        else INT_TH_LOW_RDY
    {
      hit := CheckInt(INT_TH_LOW_RDY, intThreshold);
      if hit {
        CheckedRegisters(old(bus.regs), bus.regs, bus.oracle, |old(bus.log)|, INT_TH_LOW_RDY, intThreshold);
      }
    }

    /** High-threshold interrupt: tests and clears status bit 0. Its re-arm ORs the same mask
        into the control register, where bit 0 is the threshold select bit, not an enable. */
    method CheckThreshHighInt() returns (hit: bool)
      modifies this`regValue, bus
      ensures hit == (Verdict(bus.oracle, |old(bus.log)|) && Raised(old(bus.regs)[Index(INT_STATUS)], INT_TH_HIGH_RDY))
      ensures !hit ==> Performed(bus, [Access(RegRead(INT_STATUS), Verdict(bus.oracle, |old(bus.log)|))])
      ensures hit ==> Performed(bus, [Access(RegRead(INT_STATUS), true)]
                                     + Acknowledgement(bus.oracle, |old(bus.log)| + 1, INT_TH_HIGH_RDY, intThreshold, old(bus.regs)[Index(INT_CONTR)]))
      ensures !hit ==> bus.regs == old(bus.regs)
      ensures hit && Verdict(bus.oracle, |old(bus.log)| + 1) ==>
        bus.regs[Index(INT_STATUS)] == old(bus.regs)[Index(INT_STATUS)] & !INT_TH_HIGH_RDY
      ensures hit && intThreshold && Verdict(bus.oracle, |old(bus.log)| + 3) ==>
        bus.regs[Index(INT_CONTR)] ==
          (if Verdict(bus.oracle, |old(bus.log)| + 2) then old(bus.regs)[Index(INT_CONTR)] else INT_THRES_ALS) | INT_THRES_ALS
      ensures !intThreshold || !hit ==> bus.regs[Index(INT_CONTR)] == old(bus.regs)[Index(INT_CONTR)]
      ensures regValue ==
        if !hit then (if Verdict(bus.oracle, |old(bus.log)|) then old(bus.regs)[Index(INT_STATUS)] else old(regValue))
        else if intThreshold then RearmValue(Verdict(bus.oracle, |old(bus.log)| + 2), old(bus.regs)[Index(INT_CONTR)], INT_TH_HIGH_RDY, INT_TH_HIGH_RDY)
        else INT_TH_HIGH_RDY
    {
      hit := CheckInt(INT_TH_HIGH_RDY, intThreshold);
      if hit {
        CheckedRegisters(old(bus.regs), bus.regs, bus.oracle, |old(bus.log)|, INT_TH_HIGH_RDY, intThreshold);
      }
    }

    /** Writes the scratch byte to the modulation register; the argument is not used. */
    method SetBioSensMod(bioSensMod: bv8) returns (ok: bool)
      modifies bus
      ensures ok == Verdict(bus.oracle, |old(bus.log)|)
      ensures Performed(bus, [Access(RegWrite(BIO_SETTINGS, regValue), ok)])
    {
      ok := WriteRegs(BIO_SETTINGS, regValue);
    }

    /** Registers the interrupt callback and its GPIO; no bus traffic. */
    method SetInterruptCb(sensorIntSet: bool, intPin: int)
      modifies this`hasCallback, this`intPin
      ensures hasCallback == sensorIntSet && this.intPin == intPin
      ensures Bound() <==> sensorIntSet && intPin != -1
    {
      hasCallback := sensorIntSet;
      this.intPin := intPin;
    }

    /** Reads the modulation register into the caller's byte. */
    method GetBioSensMod(prior: bv8) returns (ok: bool, modSetting: bv8)
      modifies bus
      ensures ok == Verdict(bus.oracle, |old(bus.log)|)
      ensures Performed(bus, [Access(RegRead(BIO_SETTINGS), ok)])
      ensures modSetting == if ok then old(bus.regs)[Index(BIO_SETTINGS)] else prior
    {
      ok, modSetting := ReadRegs(BIO_SETTINGS, prior);
    }
  }
}
