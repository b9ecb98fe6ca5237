/** The accelerometer driver: an object bound to one port, holding the output
    rate and scale range it last configured. The mode switches, the register
    read and write, the chip-id read and the two setters are proved against the
    run function of `Transactions` for the replies the port gave them, returned
    as ghost out-parameters in the order the transactions would be issued.
    `Init`, `New`, `GetAcceleration` and `GetClosestOutputRate` state their
    exchange, outcome and result directly. */
module Mma84 {
  import opened Bus
  import opened Registers
  import opened Rates
  import opened Transactions

  class Accelerometer {
    const port: Port
    var outputRate: real
    var scaleRange: Byte

    /** The struct literal of `new`, before the chip-id probe. */
    constructor Init(port: Port)
      ensures this.port == port
      ensures outputRate == DefaultOutputRate && scaleRange == DefaultScaleRange
    {
      this.port := port;
      outputRate := DefaultOutputRate;
      scaleRange := DefaultScaleRange;
    }

    /** `new`: builds the driver with the defaults and probes the chip id; only
        a failed read panics, and the id itself is never compared with anything. */
    static method New(port: Port) returns (o: Outcome<Accelerometer>, ghost reply: Reply)
      modifies port
      ensures ReadShaped(reply)
      ensures port.log == old(port.log) + [Exchange(ReadActions(ChipIdReg), reply)]
      ensures o.Returned? <==> reply.Success?
      ensures o.Returned? ==> fresh(o.value) && o.value.port == port &&
                              o.value.outputRate == DefaultOutputRate && o.value.scaleRange == DefaultScaleRange
      ensures o.Panicked? ==> o.cause == Explicit(ChipIdError)
    {
      var accelerometer := new Accelerometer.Init(port);
      var id;
      id, reply := accelerometer.GetChipId();
      match id
      case Ok(_) => o := Returned(accelerometer);
      case Err(e) => o := Panicked(Explicit(e));
    }

    /** `mode_active`: CTRL_REG1 read back and rewritten with bit 0 set. */
    method ModeActive() returns (o: Outcome<()>, ghost read: Reply, ghost write: Reply)
      modifies port
      ensures ReadShaped(read)
      ensures port.log == old(port.log) + ModeRun(true, read, write).exchanges
      ensures o == ModeRun(true, read, write).outcome
    {
      o, read, write := SwitchMode(true);
    }

    /** `mode_standby`: CTRL_REG1 read back and rewritten with bit 0 cleared. */
    method ModeStandby() returns (o: Outcome<()>, ghost read: Reply, ghost write: Reply)
      modifies port
      ensures ReadShaped(read)
      ensures port.log == old(port.log) + ModeRun(false, read, write).exchanges
      ensures o == ModeRun(false, read, write).outcome
    {
      o, read, write := SwitchMode(false);
    }

    /** The body shared by the two mode methods. */
    method SwitchMode(active: bool) returns (o: Outcome<()>, ghost read: Reply, ghost write: Reply)
      modifies port
      ensures ReadShaped(read)
      ensures port.log == old(port.log) + ModeRun(active, read, write).exchanges
      ensures o == ModeRun(active, read, write).outcome
    {
      var current;
      current, read := ReadRegister(CtrlReg1);
      write := Failure;
      match current
      case Err(e) =>
        o := Panicked(Explicit(e));
      case Ok(r) =>
        var value := if active then r | 0x01 else r & !(0x01 as Byte);
        assert value == ModeByte(active, r);
        ModeWriteActionsSize(value);
        var answer := port.Run(ModeWriteActions(value));
        write := answer;
        AppendAssociative(old(port.log), ReadRun(CtrlReg1, ReadError, read).exchanges, [Exchange(ModeWriteActions(value), write)]);
        o := if answer.Success? then Returned(()) else Panicked(UnwrapErr);
    }

    /** `write_register`: one transaction; the only failure is the port's. */
    method WriteRegister(addr: Byte, data: Byte) returns (r: Result<()>, ghost reply: Reply)
      modifies port
      ensures port.log == old(port.log) + WriteRun(addr, data, reply).exchanges
      ensures r == WriteRun(addr, data, reply).outcome
    {
      var answer := port.Run([EnableI2c, Start(0x0 | (addr << 1)), Tx([data]), Stop]);
      reply := answer;
      r := if answer.Success? then Ok(()) else Err(WriteError);
    }

    /** `read_register`: one addressed read with a repeated start. */
    method ReadRegister(addr: Byte) returns (r: Result<Byte>, ghost reply: Reply)
      modifies port
      ensures ReadShaped(reply)
      ensures port.log == old(port.log) + ReadRun(addr, ReadError, reply).exchanges
      ensures r == ReadRun(addr, ReadError, reply).outcome
    {
      ReadActionsSize(addr);
      var answer := port.Run(ReadActions(addr));
      reply := answer;
      r := if answer.Success? then Ok(answer.received[0]) else Err(ReadError);
    }

    /** `get_chip_id`: the same read of CHIP_ID_REG, with its own message. */
    method GetChipId() returns (r: Result<Byte>, ghost reply: Reply)
      modifies port
      ensures ReadShaped(reply)
      ensures port.log == old(port.log) + ReadRun(ChipIdReg, ChipIdError, reply).exchanges
      ensures r == ReadRun(ChipIdReg, ChipIdError, reply).outcome
    {
      ReadActionsSize(ChipIdReg);
      var answer := port.Run(ReadActions(ChipIdReg));
      reply := answer;
      r := if answer.Success? then Ok(answer.received[0]) else Err(ChipIdError);
    }

    /** `get_acceleration`: one burst read of the six output registers, then for
        each axis in turn the decoded count is stored into `accel`. A failed run
        panics; the discarded scale division panics when `scale_range` is 0; a
        buffer shorter than three panics at the first missing index. */
    method GetAcceleration(accel: array<Word>) returns (o: Outcome<()>, ghost reply: Reply)
      modifies port, accel
      ensures port.log == old(port.log) + [Exchange(BurstActions(), reply)]
      ensures reply.Success? ==> |reply.received| == 6
      ensures reply.Failure? ==> o == Panicked(UnwrapErr) && accel[..] == old(accel[..])
      ensures reply.Success? && scaleRange == 0 ==> o == Panicked(DivideByZero) && accel[..] == old(accel[..])
      ensures reply.Success? && scaleRange != 0 ==>
        && o == (if accel.Length < 3 then Panicked(IndexOutOfBounds(accel.Length)) else Returned(()))
        && (forall i :: 0 <= i < 3 && i < accel.Length ==>
              accel[i] == DecodeAxis(reply.received[2 * i], reply.received[2 * i + 1]))
        && (forall i :: 3 <= i < accel.Length ==> accel[i] == old(accel[i]))
    {
      BurstActionsSize();
      var answer := port.Run(BurstActions());
      reply := answer;
      if answer.Failure? {
        return Panicked(UnwrapErr), reply;
      }
      var raw := answer.received;
      for i := 0 to 3
        modifies accel
        invariant forall k :: 0 <= k < i && k < accel.Length ==> accel[k] == DecodeAxis(raw[2 * k], raw[2 * k + 1])
        invariant forall k :: i <= k < accel.Length ==> accel[k] == old(accel[k])
        invariant i > 0 ==> scaleRange != 0
        invariant i <= accel.Length
      {
        var count := DecodeAxis(raw[2 * i], raw[2 * i + 1]);
        if scaleRange == 0 {
          return Panicked(DivideByZero), reply;
        }
        if i >= accel.Length {
          return Panicked(IndexOutOfBounds(i)), reply;
        }
        accel[i] := count;
      }
      o := Returned(());
    }

    /** `get_closest_output_rate`: an early-return scan of the rate table. */
    method GetClosestOutputRate(requested: real) returns (r: real)
      ensures r == ClosestOutputRate(requested)
    {
      if requested <= 0.0 {
        return 0.0;
      }
      var available := OutputRates();
      OutputRatesDescending();
      for i := 0 to NumOutputRates
        invariant forall k :: 0 <= k < i ==> available[k] > requested
      {
        if available[i] <= requested {
          return available[i];
        }
      }
      r := available[NumOutputRates - 1];
    }

    /** `set_output_rate`: standby, store the closest rate, find its index,
        read CTRL_REG1, rewrite its rate field, write it back, then active. */
    method SetOutputRate(hz: real) returns (o: Outcome<Result<()>>, ghost replies: seq<Reply>)
      modifies this, port
      ensures SetOutputRateReplies(replies)
      ensures port.log == old(port.log) + SetOutputRateRun(old(outputRate), hz, replies).exchanges
      ensures o == SetOutputRateRun(old(outputRate), hz, replies).outcome
      ensures outputRate == SetOutputRateRun(old(outputRate), hz, replies).stored
      ensures scaleRange == old(scaleRange)
    {
      var standby;
      ghost var r0, r1, r2, r3, r4, r5 := Failure, Failure, Failure, Failure, Failure, Failure;
      standby, r0, r1 := ModeStandby();
      replies := [r0, r1, r2, r3, r4, r5];
      ghost var standbyRun := ModeRun(false, r0, r1);
      if standby.Panicked? {
        o := Panicked(standby.cause);
        assert SetOutputRateRun(old(outputRate), hz, replies) == SetterRun(standbyRun.exchanges, o, outputRate);
        return;
      }
      outputRate := GetClosestOutputRate(hz);
      o, r2, r3, r4, r5 := ProgramRate(outputRate);
      replies := [r0, r1, r2, r3, r4, r5];
      ghost var program := ProgramRateRun(outputRate, r2, r3, r4, r5);
      AppendAssociative(old(port.log), standbyRun.exchanges, program.exchanges);
      assert SetOutputRateRun(old(outputRate), hz, replies) == SetterRun(standbyRun.exchanges + program.exchanges, o, outputRate);
    }

    /** The index lookup of `set_output_rate` and the update that follows it. */
    method ProgramRate(rate: real)
      returns (o: Outcome<Result<()>>, ghost read: Reply, ghost write: Reply, ghost activeRead: Reply, ghost activeWrite: Reply)
      modifies port
      ensures ReadShaped(read) && ReadShaped(activeRead)
      ensures port.log == old(port.log) + ProgramRateRun(rate, read, write, activeRead, activeWrite).exchanges
      ensures o == ProgramRateRun(rate, read, write, activeRead, activeWrite).outcome
    {
      var idx := Position(OutputRates(), rate);
      if idx.None? {
        return Panicked(UnwrapNone), Failure, Failure, Failure, Failure;
      }
      o, read, write, activeRead, activeWrite := UpdateRateField(idx.value);
    }

    /** The part of `set_output_rate` after the index is found. */
    method UpdateRateField(idx: nat)
      returns (o: Outcome<Result<()>>, ghost read: Reply, ghost write: Reply, ghost activeRead: Reply, ghost activeWrite: Reply)
      requires idx < NumOutputRates
      modifies port
      ensures ReadShaped(read) && ReadShaped(activeRead)
      ensures port.log == old(port.log) + RateUpdateRun(idx, read, write, activeRead, activeWrite).exchanges
      ensures o == RateUpdateRun(idx, read, write, activeRead, activeWrite).outcome
    {
      write, activeRead, activeWrite := Failure, Failure, Failure;
      var current;
      current, read := ReadRegister(CtrlReg1);
      if current.Err? {
        o := Returned(Err(current.message));
        return;
      }
      var state := current.value;
      state := state & 199;
      if idx != 0 {
        state := state | ((idx as Byte) << 3);
      }
      assert state == RateByte(current.value, idx);
      var written;
      written, write := WriteRegister(CtrlReg1, state);
      AppendAssociative(old(port.log), ReadRun(CtrlReg1, ReadError, read).exchanges, WriteRun(CtrlReg1, state, write).exchanges);
      if written.Err? {
        o := Returned(Err(written.message));
        return;
      }
      var active;
      active, activeRead, activeWrite := ModeActive();
      AppendAssociative(old(port.log), ReadRun(CtrlReg1, ReadError, read).exchanges + WriteRun(CtrlReg1, state, write).exchanges,
                        ModeRun(true, activeRead, activeWrite).exchanges);
      if active.Panicked? {
        o := Panicked(active.cause);
        return;
      }
      o := Returned(Ok(()));
    }

    /** `set_scale_range`: store the capped range, standby, write its encoding
        to XYZ_DATA_CFG, then active. */
    method SetScaleRange(s: Byte) returns (o: Outcome<Result<()>>, ghost replies: seq<Reply>)
      modifies this, port
      ensures SetScaleRangeReplies(replies)
      ensures port.log == old(port.log) + SetScaleRangeRun(s, replies).exchanges
      ensures o == SetScaleRangeRun(s, replies).outcome
      ensures scaleRange == SetScaleRangeRun(s, replies).stored
      ensures outputRate == old(outputRate)
    {
      var range := s;
      if range > 8 {
        range := 8;
      }
      scaleRange := range;
      range := range >> 2;
      var standby;
      ghost var r0, r1, r2, r3, r4 := Failure, Failure, Failure, Failure, Failure;
      standby, r0, r1 := ModeStandby();
      replies := [r0, r1, r2, r3, r4];
      ghost var standbyRun := ModeRun(false, r0, r1);
      if standby.Panicked? {
        o := Panicked(standby.cause);
        assert SetScaleRangeRun(s, replies) == SetterRun(standbyRun.exchanges, o, scaleRange);
        return;
      }
      var written;
      written, r2 := WriteRegister(XyzDataCfg, range);
      replies := [r0, r1, r2, r3, r4];
      ghost var afterWrite := standbyRun.exchanges + WriteRun(XyzDataCfg, range, r2).exchanges;
      AppendAssociative(old(port.log), standbyRun.exchanges, WriteRun(XyzDataCfg, range, r2).exchanges);
      if written.Err? {
        o := Returned(Err(written.message));
        assert SetScaleRangeRun(s, replies) == SetterRun(afterWrite, o, scaleRange);
        return;
      }
      var active;
      active, r3, r4 := ModeActive();
      replies := [r0, r1, r2, r3, r4];
      AppendAssociative(old(port.log), afterWrite, ModeRun(true, r3, r4).exchanges);
      if active.Panicked? {
        o := Panicked(active.cause);
        assert SetScaleRangeRun(s, replies) == SetterRun(afterWrite + ModeRun(true, r3, r4).exchanges, o, scaleRange);
        return;
      }
      o := Returned(Ok(()));
    }
  }
}
