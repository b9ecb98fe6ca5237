/** The serial-bus transport the driver talks to, seen from the driver's side.

    The transport itself is an external collaborator: all the driver can see is
    that `Run` takes one ordered list of bus actions, executes it as one
    transaction, and either fails or succeeds, filling the receive buffers on
    success. The port is therefore modelled as an oracle that may answer any
    request in any way that fits it; every exchange is recorded in a ghost log
    so that the driver's contracts can speak about the exact transactions it
    issued and the answers it got. */
module Bus {

  /** A byte on the bus (Rust `u8`). */
  type Byte = bv8

  /** One primitive of a bus transaction. `Rx` carries the size of the buffer to fill. */
  datatype Action =
    | EnableI2c
    | Start(address: Byte)
    | Tx(bytes: seq<Byte>)
    | Rx(length: nat)
    | Stop

  /** The port's answer to one transaction: a failure, or success with the bytes
      it placed into the receive buffers, in order. */
  datatype Reply = Failure | Success(received: seq<Byte>)

  /** One completed call of `Run`: what was asked and what was answered. */
  datatype Exchange = Exchange(actions: seq<Action>, reply: Reply)

  /** Total number of bytes the receive actions of a transaction ask for. */
  function RxLength(actions: seq<Action>): nat
  {
    if actions == [] then 0
    else (if actions[0].Rx? then actions[0].length else 0) + RxLength(actions[1..])
  }

  /** A successful reply fills exactly the receive buffers of the request. */
  predicate Fits(actions: seq<Action>, reply: Reply)
  {
    reply.Success? ==> |reply.received| == RxLength(actions)
  }

  /** Appending logs in two steps is appending their concatenation. */
  lemma AppendAssociative(log: seq<Exchange>, first: seq<Exchange>, second: seq<Exchange>)
    ensures log + first + second == log + (first + second)
  {
  }

  class Port {
    /** Every transaction run on this port so far, oldest first. */
    ghost var log: seq<Exchange>

    constructor ()
      ensures log == []
    {
      log := [];
    }

    /** Runs one transaction atomically. The answer is the environment's choice;
        the only promise is that a successful answer fills the buffers asked for. */
    method Run(actions: seq<Action>) returns (reply: Reply)
      modifies this
      ensures Fits(actions, reply)
      ensures log == old(log) + [Exchange(actions, reply)]
    {
      reply :| Fits(actions, reply);
      log := log + [Exchange(actions, reply)];
    }
  }
}
