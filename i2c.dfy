/**
 * The host side of the I2C bus as the Seesaw driver sees it: a client
 * (adapter, 7-bit address, flags) through which i2c_transfer and
 * i2c_master_send are issued. The peripheral and the adapter are not
 * modelled; instead the client answers its k-th bus transaction with a
 * scripted Reply and records every transaction, and every usleep_range the
 * driver performs between them, in a trace.
 */
module I2c {
  import opened Bytes

  /** I2C_M_RD: the message is a read from the peripheral. */
  const I2C_M_RD: nat := 0x0001

  /** Whether the I2C_M_RD bit is set in a message's flags. */
  predicate IsRead(flags: nat)
  {
    flags % 2 == 1
  }

  /** `flags | I2C_M_RD` */
  function WithRead(flags: nat): (r: nat)
    ensures IsRead(r)
    ensures r / 2 == flags / 2
    ensures IsRead(flags) ==> r == flags
  {
    if IsRead(flags) then flags else flags + I2C_M_RD
  }

  /** struct i2c_msg: for a read, `buf` is empty and `len` bytes are received. */
  datatype Msg = Msg(addr: nat, flags: nat, len: nat, buf: seq<Byte>)

  /**
   * How the bus answers one transaction: the status returned by
   * i2c_transfer / i2c_master_send (a negative errno, or a count) and the
   * bytes the peripheral puts in the read buffer.
   */
  datatype Reply = Reply(status: int, data: seq<Byte>)

  /** One entry of the trace: a combined transfer, a plain send, or a delay. */
  datatype BusOp =
    | Transfer(msgs: seq<Msg>)
    | Send(addr: nat, bytes: seq<Byte>)
    | Sleep(minUs: nat, maxUs: nat)

  /** The length of the buffer the peripheral's bytes land in: that of the transfer's last message. */
  function ReceiveLength(msgs: seq<Msg>): nat
  {
    if msgs == [] then 0 else msgs[|msgs| - 1].len
  }

  /**
   * The n bytes found in a receive buffer of length n after the peripheral
   * sent `data`: what it sent, cut to n bytes, and zero where it sent less.
   */
  function Fit(data: seq<Byte>, n: nat): (r: seq<Byte>)
    ensures |r| == n
    ensures forall i :: 0 <= i < n ==> r[i] == (if i < |data| then data[i] else 0)
    ensures |data| >= n ==> r == data[..n]
    ensures |data| < n ==> r == data + seq(n - |data|, _ => 0)
  {
    var r := seq(n, i requires 0 <= i < n => if i < |data| then data[i] else 0);
    assert |data| < n ==> r == data + seq(n - |data|, _ => 0) by {
      if |data| < n {
        var z := data + seq(n - |data|, _ => 0);
        assert forall i :: 0 <= i < n ==> z[i] == r[i];
      }
    }
    r
  }

  class Client {
    /** client->addr */
    const addr: nat
    /** client->flags */
    const flags: nat
    /** The reply to the k-th bus transaction through this client. */
    const answer: nat -> Reply
    /** Every transaction and delay so far, oldest first. */
    var trace: seq<BusOp>
    /** How many transactions the bus has answered so far. */
    var served: nat

    /** The reply the next transaction will get. */
    function Next(): Reply
      reads this
    {
      answer(served)
    }

    constructor (addr: nat, flags: nat, answer: nat -> Reply)
      ensures this.addr == addr && this.flags == flags && this.answer == answer
      ensures trace == [] && served == 0
    {
      this.addr := addr;
      this.flags := flags;
      this.answer := answer;
      trace := [];
      served := 0;
    }

    /** i2c_transfer: one combined transaction of several messages. */
    method Transfer(msgs: seq<Msg>) returns (ret: int, rx: seq<Byte>)
      modifies this
      ensures trace == old(trace) + [BusOp.Transfer(msgs)]
      ensures served == old(served) + 1
      ensures ret == old(Next()).status
      ensures rx == Fit(old(Next()).data, ReceiveLength(msgs))
    {
      var reply := Next();
      ret := reply.status;
      rx := Fit(reply.data, ReceiveLength(msgs));
      trace := trace + [BusOp.Transfer(msgs)];
      served := served + 1;
    }

    /** i2c_master_send: one write message holding `bytes`. */
    method MasterSend(bytes: seq<Byte>) returns (ret: int)
      modifies this
      ensures trace == old(trace) + [Send(addr, bytes)]
      ensures served == old(served) + 1
      ensures ret == old(Next()).status
    {
      ret := Next().status;
      trace := trace + [Send(addr, bytes)];
      served := served + 1;
    }

    /** usleep_range: recorded only to fix its place among the transactions. */
    method USleepRange(minUs: nat, maxUs: nat)
      modifies this
      ensures trace == old(trace) + [Sleep(minUs, maxUs)]
      ensures served == old(served)
    {
      trace := trace + [Sleep(minUs, maxUs)];
    }
  }
}
