/** What the driver's operations promise, stated over their run functions:
    which bytes a mode switch writes, what each setter stores and when, which
    byte reaches the rate field, and the addressing of `write_register`. */
module Properties {
  import opened Bus
  import opened Registers
  import opened Rates
  import opened Transactions

  /** A mode switch panics with the read error when CTRL_REG1 cannot be read,
      and then issues nothing else. Otherwise it writes CTRL_REG1 back, without
      enabling the bus first, with bit 0 set to the requested mode and bits 1
      to 7 as read; it panics when that write fails. */
  lemma ModeRunWritesOnlyBitZero(active: bool, read: Reply, write: Reply)
    requires ReadShaped(read)
    ensures read.Failure? ==>
      ModeRun(active, read, write) == Run([Exchange(ReadActions(CtrlReg1), read)], Panicked(Explicit(ReadError)))
    ensures read.Success? ==>
      var run := ModeRun(active, read, write);
      && |run.exchanges| == 2
      && run.exchanges[0] == Exchange(ReadActions(CtrlReg1), read)
      && run.exchanges[1].actions == [Start(DeviceWrite), Tx([CtrlReg1, ModeByte(active, read.received[0])]), Stop]
      && run.exchanges[1].reply == write
      && EnableI2c !in run.exchanges[1].actions
      && run.exchanges[1].actions[1].bytes[1] & 0x01 == (if active then 0x01 else 0x00)
      && run.exchanges[1].actions[1].bytes[1] & 0xFE == read.received[0] & 0xFE
      && (run.outcome.Returned? <==> write.Success?)
      && (run.outcome.Panicked? ==> run.outcome.cause == UnwrapErr)
  {
    if read.Success? {
      var value := ModeByte(active, read.received[0]);
      assert ModeWriteActions(value)[1].bytes[1] == value;
    }
  }

  /** A mode switch on a device already in that mode writes back the byte it read. */
  lemma ModeRunAlreadyInMode(active: bool, read: Reply, write: Reply)
    requires ReadShaped(read) && read.Success?
    requires (read.received[0] & 0x01 == 0x01) == active
    ensures ModeRun(active, read, write).exchanges[1].actions == ModeWriteActions(read.received[0])
  {
    ModeByteIdempotent(active, read.received[0]);
  }

  /** `set_output_rate` leaves the old rate only when the first standby panics;
      after that the closest rate is stored before any register is read, so it
      stays stored whether the later transactions fail or not. On any return,
      errors included, the stored rate is one of the supported rates. */
  lemma SetOutputRateStoresClosest(rate: real, hz: real, replies: seq<Reply>)
    requires SetOutputRateReplies(replies)
    ensures ModeRun(false, replies[0], replies[1]).outcome.Panicked? ==>
      SetOutputRateRun(rate, hz, replies).stored == rate && SetOutputRateRun(rate, hz, replies).outcome.Panicked?
    ensures ModeRun(false, replies[0], replies[1]).outcome.Returned? ==>
      SetOutputRateRun(rate, hz, replies).stored == ClosestOutputRate(hz)
    ensures SetOutputRateRun(rate, hz, replies).outcome.Returned? ==>
      SetOutputRateRun(rate, hz, replies).stored in OutputRates()
  {
    ClosestOutputRateRoundsDown(hz);
    ClosestOutputRateHasIndex(hz);
  }

  /** A request of at most 0 Hz always panics: if the standby succeeds, the
      stored rate is 0 and the `unwrap` of its missing index panics before any
      further transaction. */
  lemma SetOutputRateNonPositive(rate: real, hz: real, replies: seq<Reply>)
    requires SetOutputRateReplies(replies) && hz <= 0.0
    ensures SetOutputRateRun(rate, hz, replies).outcome.Panicked?
    ensures ModeRun(false, replies[0], replies[1]).outcome.Returned? ==>
      && SetOutputRateRun(rate, hz, replies).outcome == Panicked(UnwrapNone)
      && SetOutputRateRun(rate, hz, replies).stored == 0.0
      && SetOutputRateRun(rate, hz, replies).exchanges == ModeRun(false, replies[0], replies[1]).exchanges
  {
    var standby := ModeRun(false, replies[0], replies[1]);
    ClosestOutputRateHasIndex(hz);
    if standby.outcome.Returned? {
      assert ClosestOutputRate(hz) == 0.0;
      assert standby.exchanges + [] == standby.exchanges;
    }
  }

  /** The missing-index panic happens for no other request and on no other path. */
  lemma SetOutputRateUnwrapNoneOnlyNonPositive(rate: real, hz: real, replies: seq<Reply>)
    requires SetOutputRateReplies(replies)
    ensures SetOutputRateRun(rate, hz, replies).outcome == Panicked(UnwrapNone) ==>
      hz <= 0.0 && ModeRun(false, replies[0], replies[1]).outcome.Returned?
  {
    var standby := ModeRun(false, replies[0], replies[1]);
    if standby.outcome.Returned? && hz > 0.0 {
      ClosestOutputRateHasIndex(hz);
    }
  }

  /** The index lookup panics on the missing index exactly when the stored
      rate is not in the rate table; the register update never panics so. */
  lemma ProgramRateRunUnlisted(rate: real, read: Reply, write: Reply, activeRead: Reply, activeWrite: Reply)
    requires ReadShaped(read) && ReadShaped(activeRead)
    ensures ProgramRateRun(rate, read, write, activeRead, activeWrite).outcome == Panicked(UnwrapNone) <==>
      rate !in OutputRates()
  {
  }

  /** The register update starts with the CTRL_REG1 read; a failed read ends it
      there, and otherwise it writes CTRL_REG1 back with the rate field replaced. */
  lemma RateUpdateRunWrites(idx: nat, read: Reply, write: Reply, activeRead: Reply, activeWrite: Reply)
    requires idx < NumOutputRates && ReadShaped(read) && ReadShaped(activeRead)
    ensures |RateUpdateRun(idx, read, write, activeRead, activeWrite).exchanges| >= 1
    ensures RateUpdateRun(idx, read, write, activeRead, activeWrite).exchanges[0] == Exchange(ReadActions(CtrlReg1), read)
    ensures read.Failure? ==> |RateUpdateRun(idx, read, write, activeRead, activeWrite).exchanges| == 1
    ensures read.Success? ==>
      && |RateUpdateRun(idx, read, write, activeRead, activeWrite).exchanges| >= 2
      && RateUpdateRun(idx, read, write, activeRead, activeWrite).exchanges[1] ==
         Exchange(WriteActions(CtrlReg1, RateByte(read.received[0], idx)), write)
  {
  }

  /** When `set_output_rate` gets as far as writing CTRL_REG1, it writes the
      byte it read with bits 3 to 5 replaced by the index of the stored rate
      in the rate table, and every other bit unchanged. */
  lemma SetOutputRateWritesRateBits(rate: real, hz: real, replies: seq<Reply>)
    requires SetOutputRateReplies(replies)
    requires hz > 0.0 && ModeRun(false, replies[0], replies[1]).outcome.Returned? && replies[2].Success?
    ensures |SetOutputRateRun(rate, hz, replies).exchanges| >= 4
    ensures SetOutputRateRun(rate, hz, replies).exchanges[2] == Exchange(ReadActions(CtrlReg1), replies[2])
    ensures exists written: Byte, idx: nat ::
      && SetOutputRateRun(rate, hz, replies).exchanges[3] == Exchange(WriteActions(CtrlReg1, written), replies[3])
      && idx < NumOutputRates && OutputRates()[idx] == SetOutputRateRun(rate, hz, replies).stored
      && (written >> 3) & 0x07 == idx as Byte
      && written & 0xC7 == replies[2].received[0] & 0xC7
  {
    var standby := ModeRun(false, replies[0], replies[1]);
    ModeRunWritesOnlyBitZero(false, replies[0], replies[1]);
    ClosestOutputRateHasIndex(hz);
    var closest := ClosestOutputRate(hz);
    var idx := Position(OutputRates(), closest).value;
    var update := RateUpdateRun(idx, replies[2], replies[3], replies[4], replies[5]);
    var run := SetOutputRateRun(rate, hz, replies);
    assert run.exchanges == standby.exchanges + update.exchanges;
    RateUpdateRunWrites(idx, replies[2], replies[3], replies[4], replies[5]);
    var written := RateByte(replies[2].received[0], idx);
    assert run.exchanges[3] == update.exchanges[1];
  }

  /** `set_output_rate` returns an error exactly when the request is positive,
      the standby returned, and the CTRL_REG1 read or write failed; the `try!`
      then skips every later transaction, so the failed one is the last. */
  lemma SetOutputRateErrStops(rate: real, hz: real, replies: seq<Reply>)
    requires SetOutputRateReplies(replies)
    ensures (SetOutputRateRun(rate, hz, replies).outcome.Returned? && SetOutputRateRun(rate, hz, replies).outcome.value.Err?) <==>
      hz > 0.0 && ModeRun(false, replies[0], replies[1]).outcome.Returned? && (replies[2].Failure? || replies[3].Failure?)
    ensures SetOutputRateRun(rate, hz, replies).outcome.Returned? && SetOutputRateRun(rate, hz, replies).outcome.value.Err? ==>
      |SetOutputRateRun(rate, hz, replies).exchanges| == (if replies[2].Failure? then 3 else 4)
  {
    ModeRunWritesOnlyBitZero(false, replies[0], replies[1]);
    ClosestOutputRateHasIndex(hz);
    if hz > 0.0 && ModeRun(false, replies[0], replies[1]).outcome.Returned? {
      var idx := Position(OutputRates(), ClosestOutputRate(hz)).value;
      RateUpdateRunWrites(idx, replies[2], replies[3], replies[4], replies[5]);
    }
  }

  /** A `set_output_rate` that returns `Ok` ends with the write that puts the
      device back into active mode. */
  lemma SetOutputRateOkEndsActive(rate: real, hz: real, replies: seq<Reply>)
    requires SetOutputRateReplies(replies)
    ensures SetOutputRateRun(rate, hz, replies).outcome == Returned(Ok(())) ==>
      && |SetOutputRateRun(rate, hz, replies).exchanges| == 6
      && SetOutputRateRun(rate, hz, replies).exchanges[5].actions == ModeWriteActions(ActiveByte(replies[4].received[0]))
  {
    var run := SetOutputRateRun(rate, hz, replies);
    if run.outcome == Returned(Ok(())) {
      var standby := ModeRun(false, replies[0], replies[1]);
      ModeRunWritesOnlyBitZero(false, replies[0], replies[1]);
      ClosestOutputRateHasIndex(hz);
      var idx := Position(OutputRates(), ClosestOutputRate(hz)).value;
      var update := RateUpdateRun(idx, replies[2], replies[3], replies[4], replies[5]);
      assert run.exchanges == standby.exchanges + update.exchanges;
      RateUpdateRunWrites(idx, replies[2], replies[3], replies[4], replies[5]);
      ModeRunWritesOnlyBitZero(true, replies[4], replies[5]);
      var active := ModeRun(true, replies[4], replies[5]);
      assert update.exchanges == update.exchanges[..2] + active.exchanges;
    }
  }

  /** The replies of a `set_output_rate` call in which every transaction
      succeeds, on a device whose CTRL_REG1 reads 0x01, then 0x00, then 0x30. */
  function TenHertzReplies(): seq<Reply>
  {
    [Success([0x01]), Success([]), Success([0x00]), Success([]), Success([0x30]), Success([])]
  }

  /** The register update for index 6 in that call. */
  lemma TenHertzUpdate()
    ensures RateUpdateRun(6, TenHertzReplies()[2], TenHertzReplies()[3], TenHertzReplies()[4], TenHertzReplies()[5]) ==
      Run([Exchange(ReadActions(CtrlReg1), TenHertzReplies()[2]), Exchange(WriteActions(CtrlReg1, 0x30), TenHertzReplies()[3]),
           Exchange(ReadActions(CtrlReg1), TenHertzReplies()[4]), Exchange(ModeWriteActions(0x31), TenHertzReplies()[5])],
          Returned(Ok(())))
  {
    var replies := TenHertzReplies();
    assert ActiveByte(0x30) == 0x31 && RateByte(0x00, 6) == 0x30;
    var read := ReadRun(CtrlReg1, ReadError, replies[2]);
    var write := WriteRun(CtrlReg1, 0x30, replies[3]);
    var active := ModeRun(true, replies[4], replies[5]);
    assert read.outcome == Ok(0x00) && write.outcome == Ok(());
    assert active == Run([Exchange(ReadActions(CtrlReg1), replies[4]), Exchange(ModeWriteActions(0x31), replies[5])], Returned(()));
    assert read.exchanges + write.exchanges + active.exchanges ==
      [Exchange(ReadActions(CtrlReg1), replies[2]), Exchange(WriteActions(CtrlReg1, 0x30), replies[3]),
       Exchange(ReadActions(CtrlReg1), replies[4]), Exchange(ModeWriteActions(0x31), replies[5])];
  }

  /** Asking for 10 Hz with every transaction succeeding: the driver stores
      6.25 Hz, writes its index 6 into bits 3 to 5 of CTRL_REG1, and ends by
      writing CTRL_REG1 back with the active bit set. */
  lemma SetOutputRateTenHertz()
    ensures SetOutputRateReplies(TenHertzReplies())
    ensures SetOutputRateRun(12.5, 10.0, TenHertzReplies()) ==
      SetterRun([Exchange(ReadActions(CtrlReg1), TenHertzReplies()[0]), Exchange(ModeWriteActions(0x00), TenHertzReplies()[1])] +
                [Exchange(ReadActions(CtrlReg1), TenHertzReplies()[2]), Exchange(WriteActions(CtrlReg1, 0x30), TenHertzReplies()[3]),
                 Exchange(ReadActions(CtrlReg1), TenHertzReplies()[4]), Exchange(ModeWriteActions(0x31), TenHertzReplies()[5])],
                Returned(Ok(())), 6.25)
  {
    var replies := TenHertzReplies();
    assert StandbyByte(0x01) == 0x00;
    var standby := ModeRun(false, replies[0], replies[1]);
    assert standby == Run([Exchange(ReadActions(CtrlReg1), replies[0]), Exchange(ModeWriteActions(0x00), replies[1])], Returned(()));
    ClosestOutputRateExamples();
    PositionOfSixPointTwoFive();
    TenHertzUpdate();
    var program := ProgramRateRun(6.25, replies[2], replies[3], replies[4], replies[5]);
    var update := RateUpdateRun(6, replies[2], replies[3], replies[4], replies[5]);
    assert program == update;
    assert SetOutputRateRun(12.5, 10.0, replies) == SetterRun(standby.exchanges + update.exchanges, update.outcome, 6.25);
  }

  /** `set_scale_range` stores the capped range on every path, even when it
      panics or errs, and when it reaches the XYZ_DATA_CFG write it writes the
      encoding of that range, which is at most 2. */
  lemma SetScaleRangeStoresClamped(s: Byte, replies: seq<Reply>)
    requires SetScaleRangeReplies(replies)
    ensures SetScaleRangeRun(s, replies).stored == ClampScale(s)
    ensures ModeRun(false, replies[0], replies[1]).outcome.Returned? ==>
      && |SetScaleRangeRun(s, replies).exchanges| >= 3
      && SetScaleRangeRun(s, replies).exchanges[2] == Exchange(WriteActions(XyzDataCfg, ScaleEncoding(s)), replies[2])
      && ScaleEncoding(s) <= 2
  {
    ModeRunWritesOnlyBitZero(false, replies[0], replies[1]);
  }

  /** A `set_scale_range` that returns `Ok` ends with the write that puts the
      device back into active mode. */
  lemma SetScaleRangeOkEndsActive(s: Byte, replies: seq<Reply>)
    requires SetScaleRangeReplies(replies)
    ensures SetScaleRangeRun(s, replies).outcome == Returned(Ok(())) ==>
      && |SetScaleRangeRun(s, replies).exchanges| == 5
      && SetScaleRangeRun(s, replies).exchanges[4].actions == ModeWriteActions(ActiveByte(replies[3].received[0]))
  {
    ModeRunWritesOnlyBitZero(false, replies[0], replies[1]);
    ModeRunWritesOnlyBitZero(true, replies[3], replies[4]);
  }

  /** `set_scale_range` returns the write error exactly when the standby
      returned and the XYZ_DATA_CFG write failed; the `try!` then skips the
      switch back to active, so the run stops after three exchanges. */
  lemma SetScaleRangeErrStops(s: Byte, replies: seq<Reply>)
    requires SetScaleRangeReplies(replies)
    ensures SetScaleRangeRun(s, replies).outcome == Returned(Err(WriteError)) <==>
      ModeRun(false, replies[0], replies[1]).outcome.Returned? && replies[2].Failure?
    ensures SetScaleRangeRun(s, replies).outcome.Returned? && SetScaleRangeRun(s, replies).outcome.value.Err? ==>
      |SetScaleRangeRun(s, replies).exchanges| == 3
  {
    ModeRunWritesOnlyBitZero(false, replies[0], replies[1]);
  }

  /** Ranges that are not in the table are stored as given when at most 8: a
      request for 3 G leaves 3 in the driver and writes the 2 G encoding, and
      the stored range is 0, which makes `get_acceleration` divide by zero,
      exactly when 0 was requested. */
  lemma SetScaleRangeKeepsUnsupported(s: Byte, replies: seq<Reply>)
    requires SetScaleRangeReplies(replies)
    ensures SetScaleRangeRun(3, replies).stored == 3 && 3 !in ScaleRanges() && ScaleEncoding(3) == 0
    ensures SetScaleRangeRun(s, replies).stored == 0 <==> s == 0
    ensures SetScaleRangeRun(s, replies).stored !in ScaleRanges() <==> s != 2 && s != 4 && s < 8
  {
    SetScaleRangeStoresClamped(s, replies);
    SetScaleRangeStoresClamped(3, replies);
  }

  /** `write_register` addresses the bus with the register address shifted
      like a device address and transmits only the data byte, so the register
      address itself never reaches the device, and for the registers the
      driver writes, the transaction is not addressed to the accelerometer. */
  lemma WriteRunMisaddresses(register: Byte, data: Byte, reply: Reply)
    ensures WriteRun(register, data, reply).exchanges[0].actions[1] == Start(RegisterWriteAddress(register))
    ensures forall a :: a in WriteRun(register, data, reply).exchanges[0].actions && a.Tx? ==> a.bytes == [data]
    ensures register == CtrlReg1 || register == XyzDataCfg ==>
      Start(DeviceWrite) !in WriteRun(register, data, reply).exchanges[0].actions
  {
    RegisterWriteAddressHitsDevice(register);
    DeviceAddressBytes();
  }
}
