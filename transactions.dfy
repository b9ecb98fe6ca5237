/** The bus transactions the driver issues and, for the mode switches, the
    register read and write (which the chip-id read shares) and the two
    setters, a pure *run function* that gives, from the replies the port
    chooses, the exact exchanges the operation performs, whether it returns or
    panics, and what it leaves in the driver's fields. Replies are passed for
    every transaction the operation might issue; the ones for transactions it
    does not reach play no part. The driver's methods for these operations are
    proved against these functions, and the `Properties` module states what
    they promise in terms of them. `new` and `get_acceleration`, which also
    talk to the port, have no run function: their methods state the exchange
    and the outcome directly, as do `get_closest_output_rate` and the
    constructor. */
module Transactions {
  import opened Bus
  import opened Registers
  import opened Rates

  /** Rust's `Result<_, &'static str>`: a recoverable failure with a fixed message. */
  datatype Result<T> = Ok(value: T) | Err(message: string)

  /** Why a call panicked. */
  datatype PanicCause =
    | Explicit(message: string)  // `panic!(e)` with the error message `e`
    | UnwrapErr                  // `unwrap()` on a failed port run
    | UnwrapNone                 // `unwrap()` on a `position` that found nothing
    | DivideByZero               // integer division by zero
    | IndexOutOfBounds(index: nat)

  /** Either the call returned its value, or it panicked and the process stopped. */
  datatype Outcome<T> = Returned(value: T) | Panicked(cause: PanicCause)

  const ReadError := "Unable to read register"
  const WriteError := "Unable to write to register"
  const ChipIdError := "Unable to read chip id"

  /** `read_register` / `get_chip_id`: write the register address, then a
      repeated start in read mode and a one-byte receive. */
  function ReadActions(register: Byte): seq<Action>
  {
    [EnableI2c, Start(DeviceWrite), Tx([register]), Start(DeviceRead), Rx(1), Stop]
  }

  /** `write_register`: the address byte is built from the register address and
      only the data byte is transmitted. */
  function WriteActions(register: Byte, data: Byte): seq<Action>
  {
    [EnableI2c, Start(RegisterWriteAddress(register)), Tx([data]), Stop]
  }

  /** The write-back of `mode_active` / `mode_standby`, which does not enable the bus. */
  function ModeWriteActions(value: Byte): seq<Action>
  {
    [Start(DeviceWrite), Tx([CtrlReg1, value]), Stop]
  }

  /** The six-byte burst read of `get_acceleration`, which does not enable the bus. */
  function BurstActions(): seq<Action>
  {
    [Start(DeviceWrite), Tx([OutXMsb]), Start(DeviceRead), Rx(6), Stop]
  }

  /** A register read asks for one byte, and transmits the register address. */
  lemma ReadActionsSize(register: Byte)
    ensures RxLength(ReadActions(register)) == 1
    ensures Tx([register]) in ReadActions(register)
  {
    var read := ReadActions(register);
    assert RxLength(read[5..]) == 0 by { assert read[5..][1..] == []; }
    assert RxLength(read[4..]) == 1 by { assert read[4..][1..] == read[5..]; }
    assert RxLength(read[3..]) == 1 by { assert read[3..][1..] == read[4..]; }
    assert RxLength(read[2..]) == 1 by { assert read[2..][1..] == read[3..]; }
    assert RxLength(read[1..]) == 1 by { assert read[1..][1..] == read[2..]; }
    assert read[2] == Tx([register]);
  }

  /** A register write receives nothing. */
  lemma WriteActionsSize(register: Byte, data: Byte)
    ensures RxLength(WriteActions(register, data)) == 0
  {
    var write := WriteActions(register, data);
    assert RxLength(write[3..]) == 0 by { assert write[3..][1..] == []; }
    assert RxLength(write[2..]) == 0 by { assert write[2..][1..] == write[3..]; }
    assert RxLength(write[1..]) == 0 by { assert write[1..][1..] == write[2..]; }
  }

  /** A mode write receives nothing and does not enable the bus. */
  lemma ModeWriteActionsSize(value: Byte)
    ensures RxLength(ModeWriteActions(value)) == 0
    ensures EnableI2c !in ModeWriteActions(value)
  {
    var mode := ModeWriteActions(value);
    assert RxLength(mode[2..]) == 0 by { assert mode[2..][1..] == []; }
    assert RxLength(mode[1..]) == 0 by { assert mode[1..][1..] == mode[2..]; }
  }

  /** The burst read receives six bytes and does not enable the bus. */
  lemma BurstActionsSize()
    ensures RxLength(BurstActions()) == 6
    ensures EnableI2c !in BurstActions()
  {
    var burst := BurstActions();
    assert RxLength(burst[4..]) == 0 by { assert burst[4..][1..] == []; }
    assert RxLength(burst[3..]) == 6 by { assert burst[3..][1..] == burst[4..]; }
    assert RxLength(burst[2..]) == 6 by { assert burst[2..][1..] == burst[3..]; }
    assert RxLength(burst[1..]) == 6 by { assert burst[1..][1..] == burst[2..]; }
  }

  /** A reply that can answer a one-byte read. */
  predicate ReadShaped(reply: Reply)
  {
    reply.Success? ==> |reply.received| == 1
  }

  /** The exchanges of one operation and what it produced. */
  datatype Run<T> = Run(exchanges: seq<Exchange>, outcome: T)

  /** What a setter did: its exchanges, its outcome, and the value it left in its field. */
  datatype SetterRun<F> = SetterRun(exchanges: seq<Exchange>, outcome: Outcome<Result<()>>, stored: F)

  /** One register read: the received byte, or the given message when the port fails. */
  function ReadRun(register: Byte, message: string, reply: Reply): (run: Run<Result<Byte>>)
    requires ReadShaped(reply)
    ensures |run.exchanges| == 1 && run.exchanges[0].reply == reply
    ensures run.outcome.Ok? <==> reply.Success?
    ensures reply.Success? ==> run.outcome == Ok(reply.received[0])
    ensures run.outcome.Err? ==> run.outcome.message == message
  {
    Run([Exchange(ReadActions(register), reply)],
        if reply.Success? then Ok(reply.received[0]) else Err(message))
  }

  /** One register write: `Ok` unless the port fails. */
  function WriteRun(register: Byte, data: Byte, reply: Reply): (run: Run<Result<()>>)
    ensures |run.exchanges| == 1 && run.exchanges[0].reply == reply
    ensures run.outcome.Ok? <==> reply.Success?
    ensures run.outcome.Err? ==> run.outcome.message == WriteError
  {
    Run([Exchange(WriteActions(register, data), reply)],
        if reply.Success? then Ok(()) else Err(WriteError))
  }

  /** `mode_active` (active) or `mode_standby`: read CTRL_REG1, panicking if that
      fails, then write it back with bit 0 changed, panicking if that fails. */
  function ModeRun(active: bool, read: Reply, write: Reply): (run: Run<Outcome<()>>)
    requires ReadShaped(read)
    ensures |run.exchanges| == (if read.Success? then 2 else 1)
    ensures run.exchanges[0] == Exchange(ReadActions(CtrlReg1), read)
    ensures run.outcome.Returned? <==> read.Success? && write.Success?
    ensures run.outcome.Panicked? ==> run.outcome.cause in {Explicit(ReadError), UnwrapErr}
  {
    var current := ReadRun(CtrlReg1, ReadError, read);
    if current.outcome.Err? then
      Run(current.exchanges, Panicked(Explicit(current.outcome.message)))
    else
      Run(current.exchanges + [Exchange(ModeWriteActions(ModeByte(active, current.outcome.value)), write)],
          if write.Success? then Returned(()) else Panicked(UnwrapErr))
  }

  /** Replies for the transactions a setter may issue, in order; every reply to
      a one-byte read carries one byte, as `Bus.Port.Run` guarantees. */
  predicate SetOutputRateReplies(replies: seq<Reply>)
  {
    |replies| == 6 && ReadShaped(replies[0]) && ReadShaped(replies[2]) && ReadShaped(replies[4])
  }

  predicate SetScaleRangeReplies(replies: seq<Reply>)
  {
    |replies| == 5 && ReadShaped(replies[0]) && ReadShaped(replies[3])
  }

  /** `set_output_rate(hz)` on a driver whose `output_rate` is `rate`. Replies:
      standby read and write, CTRL_REG1 read, CTRL_REG1 write, active read and write. */
  function SetOutputRateRun(rate: real, hz: real, replies: seq<Reply>): (run: SetterRun<real>)
    requires SetOutputRateReplies(replies)
    ensures run.outcome == Returned(Ok(())) <==>
      hz > 0.0 && replies[0].Success? && replies[1].Success? && replies[2].Success? &&
      replies[3].Success? && replies[4].Success? && replies[5].Success?
  {
    var standby := ModeRun(false, replies[0], replies[1]);
    if standby.outcome.Panicked? then
      SetterRun(standby.exchanges, Panicked(standby.outcome.cause), rate)
    else
      var closest := ClosestOutputRate(hz);
      var program := ProgramRateRun(closest, replies[2], replies[3], replies[4], replies[5]);
      SetterRun(standby.exchanges + program.exchanges, program.outcome, closest)
  }

  /** `set_output_rate` after the closest rate is stored: look up its index,
      panicking if it is not in the table, then update the rate field. */
  function ProgramRateRun(rate: real, read: Reply, write: Reply, activeRead: Reply, activeWrite: Reply)
    : (run: Run<Outcome<Result<()>>>)
    requires ReadShaped(read) && ReadShaped(activeRead)
    ensures run.outcome == Panicked(UnwrapNone) <==> run.exchanges == []
    ensures run.exchanges != [] ==> run.exchanges[0] == Exchange(ReadActions(CtrlReg1), read)
  {
    match Position(OutputRates(), rate)
    case None => Run([], Panicked(UnwrapNone))
    case Some(idx) => RateUpdateRun(idx, read, write, activeRead, activeWrite)
  }

  /** The rest of `set_output_rate` once the rate index is known: read CTRL_REG1,
      write it back with the rate field replaced, then switch to active. */
  function RateUpdateRun(idx: nat, read: Reply, write: Reply, activeRead: Reply, activeWrite: Reply)
    : (run: Run<Outcome<Result<()>>>)
    requires idx < NumOutputRates && ReadShaped(read) && ReadShaped(activeRead)
    ensures run.outcome == Returned(Ok(())) <==>
      read.Success? && write.Success? && activeRead.Success? && activeWrite.Success?
    ensures (run.outcome.Returned? && run.outcome.value.Err?) <==> read.Failure? || write.Failure?
    ensures run.outcome.Panicked? ==> run.outcome.cause in {Explicit(ReadError), UnwrapErr}
  {
    var current := ReadRun(CtrlReg1, ReadError, read);
    if current.outcome.Err? then
      Run(current.exchanges, Returned(Err(current.outcome.message)))
    else
      var written := WriteRun(CtrlReg1, RateByte(current.outcome.value, idx), write);
      var afterWrite := current.exchanges + written.exchanges;
      if written.outcome.Err? then
        Run(afterWrite, Returned(Err(written.outcome.message)))
      else
        var active := ModeRun(true, activeRead, activeWrite);
        Run(afterWrite + active.exchanges,
            if active.outcome.Panicked? then Panicked(active.outcome.cause) else Returned(Ok(())))
  }

  /** `set_scale_range(s)`. Replies: standby read and write, XYZ_DATA_CFG write,
      active read and write. */
  function SetScaleRangeRun(s: Byte, replies: seq<Reply>): (run: SetterRun<Byte>)
    requires SetScaleRangeReplies(replies)
    ensures run.outcome == Returned(Ok(())) <==>
      replies[0].Success? && replies[1].Success? && replies[2].Success? && replies[3].Success? && replies[4].Success?
  {
    var clamped := ClampScale(s);
    var standby := ModeRun(false, replies[0], replies[1]);
    if standby.outcome.Panicked? then
      SetterRun(standby.exchanges, Panicked(standby.outcome.cause), clamped)
    else
      var write := WriteRun(XyzDataCfg, clamped >> 2, replies[2]);
      var afterWrite := standby.exchanges + write.exchanges;
      if write.outcome.Err? then
        SetterRun(afterWrite, Returned(Err(write.outcome.message)), clamped)
      else
        var active := ModeRun(true, replies[3], replies[4]);
        SetterRun(afterWrite + active.exchanges,
                  if active.outcome.Panicked? then Panicked(active.outcome.cause) else Returned(Ok(())),
                  clamped)
  }
}
