/**
 * The Seesaw register transport: every register is addressed by a module
 * base byte and a function byte. A read sends the two address bytes and then
 * receives the value in the same i2c_transfer; a write sends the address
 * bytes followed by the big-endian value in one i2c_master_send.
 */
module Transport {
  import opened Bytes
  import opened I2c

  /** The two messages of a register read: address write, then a read of `count` bytes. */
  function ReadMessages(addr: nat, flags: nat, high: Byte, low: Byte, count: nat): seq<Msg>
  {
    [Msg(addr, flags, 2, [high, low]), Msg(addr, WithRead(flags), count, [])]
  }

  /** The single message of seesaw_register_write_u8. */
  function WriteU8Frame(high: Byte, low: Byte, value: Byte): seq<Byte>
  {
    [high, low, value]
  }

  /** The single message of seesaw_register_write_u32. */
  function WriteU32Frame(high: Byte, low: Byte, value: U32): seq<Byte>
  {
    [high, low] + ToBE32(value)
  }

  /**
   * What a register helper returns for a transport status: a negative errno
   * unchanged, anything else (a full or a short count alike) as success.
   */
  function Status(ret: int): (r: int)
    ensures r <= 0
    ensures r < 0 <==> ret < 0
    ensures r != 0 ==> r == ret
  {
    if ret < 0 then ret else 0
  }

  /** The trace entry of a register read. */
  function ReadOp(addr: nat, flags: nat, high: Byte, low: Byte, count: nat): BusOp
  {
    BusOp.Transfer(ReadMessages(addr, flags, high, low, count))
  }

  lemma ReadMessagesShape(addr: nat, flags: nat, high: Byte, low: Byte, count: nat)
    ensures var m := ReadMessages(addr, flags, high, low, count);
      && |m| == 2
      && m[0].addr == addr && m[1].addr == addr
      && m[0].buf == [high, low] && m[0].len == 2 && m[0].flags == flags
      && (!IsRead(flags) ==> !IsRead(m[0].flags))
      && IsRead(m[1].flags) && m[1].len == count
      && ReceiveLength(m) == count
  {
  }

  /** The last four bytes of a u32 write frame decode, big-endian, to the value written. */
  lemma WriteU32FrameRoundTrip(high: Byte, low: Byte, value: U32)
    ensures var f := WriteU32Frame(high, low, value);
      |f| == 6 && f[0] == high && f[1] == low && BE32(f[2..6]) == value
  {
    var f := WriteU32Frame(high, low, value);
    assert f[2..6] == ToBE32(value);
    BE32RoundTrip(value);
  }

  /** seesaw_register_read */
  method RegisterRead(client: Client, high: Byte, low: Byte, count: nat) returns (ret: int, buf: seq<Byte>)
    modifies client
    ensures client.trace == old(client.trace) + [ReadOp(client.addr, client.flags, high, low, count)]
    ensures client.served == old(client.served) + 1
    ensures ret == Status(old(client.Next()).status)
    ensures buf == Fit(old(client.Next()).data, count)
  {
    var msgs := ReadMessages(client.addr, client.flags, high, low, count);
    ReadMessagesShape(client.addr, client.flags, high, low, count);
    var status;
    status, buf := client.Transfer(msgs);
    if status < 0 {
      return status, buf;
    }
    return 0, buf;
  }

  /** seesaw_register_write_u8 */
  method RegisterWriteU8(client: Client, high: Byte, low: Byte, value: Byte) returns (ret: int)
    modifies client
    ensures client.trace == old(client.trace) + [Send(client.addr, WriteU8Frame(high, low, value))]
    ensures client.served == old(client.served) + 1
    ensures ret == Status(old(client.Next()).status)
  {
    var status := client.MasterSend([high, low, value]);
    if status < 0 {
      return status;
    }
    return 0;
  }

  /** seesaw_register_write_u32 */
  method RegisterWriteU32(client: Client, high: Byte, low: Byte, value: U32) returns (ret: int)
    modifies client
    ensures client.trace == old(client.trace) + [Send(client.addr, WriteU32Frame(high, low, value))]
    ensures client.served == old(client.served) + 1
    ensures ret == Status(old(client.Next()).status)
  {
    var buf := [high, low] + ToBE32(value);
    var status := client.MasterSend(buf);
    if status < 0 {
      return status;
    }
    return 0;
  }
}
