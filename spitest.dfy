/**
 * The SPI loop-back test. A master sends buffers of random length (1 to 32
 * bytes) whose bytes count up from byte `g_last_tx_len - 1` of its previous
 * buffer (the last byte sent, except on the first pass, where the start-up
 * exchange sent 4 bytes but recorded a length of 32). The slave answers
 * the start-up bytes with 0x77 and the first loop transfer with 0x88;
 * after that it answers each transfer with the bytes it received in the
 * previous one, padded with 0xaa, and from then on the master checks each
 * answer against what it sent last. Master and slave are two builds of one program; here they are two
 * classes that share the callback argument record.
 */
module SpiTest {
  import opened Machine

  /** Size of every transmit and receive buffer. */
  const BUF_LEN: int := 32
  /** The slave pads its echo with this byte. */
  const ECHO_PAD: byte := 0xaa
  /** The slave's answer to the first transfer it sees. */
  const FIRST_REPLY: byte := 0x88
  /** The slave's default transmit byte. */
  const DEFAULT_TX: byte := 0x77

  // ---------------------------------------------------------------------
  // Buffer contents
  // ---------------------------------------------------------------------

  /** The first `len` bytes of `s` all equal `v`. */
  predicate AllBytes(s: seq<byte>, v: byte, len: int)
    requires len <= |s|
  {
    forall i :: 0 <= i < len ==> s[i] == v
  }

  /**
   * What the master accepts as the answer to its last transfer: the first
   * `len` received bytes repeat what it sent last (`lastTxLen` bytes of
   * `lastTx`), and whatever lies beyond that is the 0xaa padding.
   */
  predicate EchoesLast(rx: seq<byte>, lastTx: seq<byte>, lastTxLen: nat, len: int)
    requires |rx| == BUF_LEN && |lastTx| == BUF_LEN && len <= BUF_LEN
  {
    && (forall i :: 0 <= i < len && i < lastTxLen ==> rx[i] == lastTx[i])
    && (forall i :: lastTxLen <= i < len ==> rx[i] == ECHO_PAD)
  }

  /** The slave's echo: the first `n` received bytes, then 0xaa. */
  function EchoBuffer(received: seq<byte>, n: nat): (echo: seq<byte>)
    requires |received| == BUF_LEN && n <= BUF_LEN
    ensures |echo| == BUF_LEN
    ensures forall i :: 0 <= i < n ==> echo[i] == received[i]
    ensures forall i :: n <= i < BUF_LEN ==> echo[i] == ECHO_PAD
  {
    received[..n] + seq(BUF_LEN - n, _ => ECHO_PAD)
  }

  /**
   * The slave's echo of a transfer is accepted by the master: if the slave
   * received intact the `n` bytes the master sent last, and the master
   * receives the echo in its first `len` bytes, the master's check passes,
   * whatever the new length.
   */
  lemma EchoPassesValidation(slaveRx: seq<byte>, n: nat, lastTx: seq<byte>, masterRx: seq<byte>, len: int)
    requires |slaveRx| == BUF_LEN && |lastTx| == BUF_LEN && |masterRx| == BUF_LEN
    requires n <= BUF_LEN && len <= BUF_LEN
    requires slaveRx[..n] == lastTx[..n]
    requires forall i :: 0 <= i < len ==> masterRx[i] == EchoBuffer(slaveRx, n)[i]
    ensures EchoesLast(masterRx, lastTx, n, len)
  {
    var echo := EchoBuffer(slaveRx, n);
    forall i | 0 <= i < len && i < n
      ensures masterRx[i] == lastTx[i]
    {
      assert slaveRx[..n][i] == lastTx[..n][i];
    }
  }

  /** The master's next transfer length, `(rand() & 0x1F) + 1`. */
  function NextLength(r: bv32): (n: int)
    ensures 1 <= n <= BUF_LEN
  {
    var low := r & 0x1F;
    assert low <= 0x1F;
    (low as int) + 1
  }

  /** `n` bytes counting up from `start`, computed as `uint8_t` sums. */
  function Ramp(start: byte, n: nat): (s: seq<byte>)
    ensures |s| == n
    ensures forall i :: 0 <= i < n ==> s[i] as int == (start as int + i) % 0x100
  {
    var s := seq(n, i => Wrap8(start as int + i));
    assert forall i :: 0 <= i < n ==> s[i] == Wrap8(start as int + i);
    s
  }

  /** Incrementing commutes with reduction modulo 256. */
  lemma ModSucc(a: int)
    ensures (a + 1) % 0x100 == (a % 0x100 + 1) % 0x100
  {
    var q, m := a / 0x100, a % 0x100;
    assert a == 0x100 * q + m;
    if m < 0xFF {
      assert a + 1 == 0x100 * q + (m + 1);
    } else {
      assert a + 1 == 0x100 * (q + 1);
    }
  }

  /** A ramp starts at its start byte and each byte is one more than the one before, modulo 256. */
  lemma RampCountsUp(start: byte, n: nat)
    ensures n > 0 ==> Ramp(start, n)[0] == start
    ensures forall i :: 0 < i < n ==> Ramp(start, n)[i] as int == (Ramp(start, n)[i - 1] as int + 1) % 0x100
  {
    var s := Ramp(start, n);
    forall i | 0 < i < n
      ensures s[i] as int == (s[i - 1] as int + 1) % 0x100
    {
      var a := start as int + i - 1;
      assert s[i - 1] as int == a % 0x100;
      assert s[i] as int == (a + 1) % 0x100;
      ModSucc(a);
    }
  }

  predicate Odd(x: int)
  {
    x % 2 == 1
  }

  // ---------------------------------------------------------------------
  // The callback argument
  // ---------------------------------------------------------------------

  /** `struct sblinky_spi_cb_arg`. */
  class CbArg {
    var transfers: int
    var txlen: int
    /** A `uint32_t`. */
    var txRxBytes: int

    constructor ()
      ensures transfers == 0 && txlen == 0 && txRxBytes == 0
    {
      transfers, txlen, txRxBytes := 0, 0, 0;
    }
  }

  // ---------------------------------------------------------------------
  // The master
  // ---------------------------------------------------------------------

  /** The master build's globals. */
  class SpiMaster {
    const tx: array<byte>       // g_spi_tx_buf
    const lastTx: array<byte>   // g_spi_last_tx_buf
    const rx: array<byte>       // g_spi_rx_buf
    const cb: CbArg             // spi_cb_obj
    var cbArg: CbArg?           // spi_cb_arg
    var xfrNum: int             // g_spi_xfr_num, a uint32_t
    var nullRx: int             // g_spi_null_rx, a uint8_t
    var lastTxLen: nat          // g_last_tx_len, a uint8_t

    ghost predicate Valid()
      reads this
    {
      && tx.Length == BUF_LEN && lastTx.Length == BUF_LEN && rx.Length == BUF_LEN
      && tx != lastTx && tx != rx && lastTx != rx
      && (cbArg == null || cbArg == cb)
      && 0 <= xfrNum < UINT32_MOD && 0 <= nullRx < 0x100 && lastTxLen < 0x100
    }

    /** After the start-up exchange: the callback argument is installed and its length is in range. */
    ghost predicate Running()
      reads this, cb
    {
      cbArg == cb && 1 <= cb.txlen <= BUF_LEN
    }

    /** Zero-initialised globals. */
    constructor ()
      ensures Valid() && fresh(tx) && fresh(lastTx) && fresh(rx) && fresh(cb)
      ensures tx[..] == seq(BUF_LEN, _ => 0) && lastTx[..] == seq(BUF_LEN, _ => 0)
      ensures rx[..] == seq(BUF_LEN, _ => 0)
      ensures cbArg == null && xfrNum == 0 && nullRx == 0 && lastTxLen == 0
      ensures cb.transfers == 0 && cb.txlen == 0 && cb.txRxBytes == 0
    {
      tx := new byte[BUF_LEN](_ => 0);
      lastTx := new byte[BUF_LEN](_ => 0);
      rx := new byte[BUF_LEN](_ => 0);
      cb := new CbArg();
      cbArg := null;
      xfrNum, nullRx, lastTxLen := 0, 0, 0;
    }

    /**
     * `spitest_validate_last`: true when the check passes; false where the
     * code's `assert(0)` would stop the program.
     */
    method ValidateLast(len: int) returns (ok: bool)
      requires Valid() && len <= BUF_LEN
      ensures ok <==> (nullRx != 0 || EchoesLast(rx[..], lastTx[..], lastTxLen, len))
    {
      if nullRx != 0 {
        return true;
      }
      var curlen, remlen;
      if lastTxLen < len {
        curlen, remlen := lastTxLen, len - lastTxLen;
      } else {
        curlen, remlen := len, 0;
      }
      var i := 0;
      while i < curlen
        invariant 0 <= i && (curlen < 0 ==> i == 0) && (0 <= curlen ==> i <= curlen)
        invariant forall k :: 0 <= k < i ==> rx[k] == lastTx[k]
      {
        if rx[i] != lastTx[i] {
          return false;
        }
        i := i + 1;
      }
      var curindex := curlen;
      i := 0;
      while i < remlen
        invariant 0 <= i <= remlen
        invariant forall k :: curindex <= k < curindex + i ==> rx[k] == ECHO_PAD
      {
        if rx[curindex + i] != ECHO_PAD {
          return false;
        }
        i := i + 1;
      }
      return true;
    }

    /**
     * The start of the master's `task1_handler`: send 0xdeadbeef one byte at
     * a time, `replies[i]` being the slave's answer to byte i, each of which
     * must be 0x77; then install the callback argument with length 32.
     */
    method Start(replies: seq<int>) returns (ok: bool)
      requires Valid() && |replies| == 4
      modifies tx, rx, this`xfrNum, this`cbArg, cb`txlen
      ensures Valid()
      ensures tx[..] == [0xde, 0xad, 0xbe, 0xef] + old(tx[4..])
      ensures ok <==> forall i :: 0 <= i < 4 ==> replies[i] == DEFAULT_TX as int
      ensures ok ==> rx[..] == seq(4, _ => DEFAULT_TX) + old(rx[4..])
      ensures ok ==> xfrNum == Wrap32(old(xfrNum) + 1) && Running() && cb.txlen == BUF_LEN
      ensures !ok ==> xfrNum == old(xfrNum) && cbArg == old(cbArg) && cb.txlen == old(cb.txlen)
    {
      tx[0], tx[1], tx[2], tx[3] := 0xde, 0xad, 0xbe, 0xef;
      var i := 0;
      while i < 4
        invariant 0 <= i <= 4
        invariant forall k :: 0 <= k < i ==> replies[k] == DEFAULT_TX as int && rx[k] == DEFAULT_TX
        invariant forall k :: 4 <= k < BUF_LEN ==> rx[k] == old(rx[k])
        modifies rx
      {
        if replies[i] != DEFAULT_TX as int {
          return false;
        }
        rx[i] := replies[i] as byte;
        i := i + 1;
      }
      xfrNum := Wrap32(xfrNum + 1);
      cbArg := cb;
      cb.txlen := BUF_LEN;
      ok := true;
    }

    /**
     * One pass of the master loop up to the transfer: remember the length
     * and bytes of the last transfer, draw the next length from `r` (the
     * value `rand()` returned) and fill the transmit buffer with bytes
     * counting up from byte `g_last_tx_len - 1` of the previous buffer.
     */
    method PrepareNext(r: bv32)
      requires Valid() && Running()
      modifies tx, lastTx, this`lastTxLen, cb`txlen
      ensures Valid() && Running()
      ensures lastTxLen == old(cb.txlen)
      ensures cb.txlen == NextLength(r)
      ensures lastTx[..lastTxLen] == old(tx[..])[..lastTxLen]
      ensures lastTx[lastTxLen..] == old(lastTx[..])[lastTxLen..]
      ensures tx[..cb.txlen] == Ramp(lastTx[lastTxLen - 1], cb.txlen)
      ensures tx[cb.txlen..] == old(tx[..])[cb.txlen..]
    {
      lastTxLen := Wrap8(cb.txlen) as nat;
      cb.txlen := NextLength(r);
      forall k | 0 <= k < lastTxLen {
        lastTx[k] := tx[k];
      }
      FillRamp(lastTx[lastTxLen - 1], cb.txlen);
    }

    /** The loop that fills the first `n` transmit bytes with `start`, `start + 1`, ... as `uint8_t`. */
    method FillRamp(start: byte, n: int)
      requires Valid() && 0 <= n <= BUF_LEN
      modifies tx
      ensures tx[..n] == Ramp(start, n)
      ensures tx[n..] == old(tx[..])[n..]
    {
      var i := 0;
      while i < n
        invariant 0 <= i <= n
        invariant forall k :: 0 <= k < i ==> tx[k] == Wrap8(start as int + k)
        invariant forall k :: i <= k < BUF_LEN ==> tx[k] == old(tx[k])
      {
        tx[i] := Wrap8(start as int + i);
        i := i + 1;
      }
      assert forall k :: 0 <= k < n ==> tx[k] == Ramp(start, n)[k];
    }

    /**
     * The transfer of one pass of the master loop. With an odd transfer
     * counter the transfer is non-blocking: it is started and the callback
     * checks it later. With an even counter it is blocking: the slave's
     * answer `received` lands in the receive buffer, is checked at once,
     * and the counter is incremented here.
     */
    method Transfer(received: seq<byte>) returns (ok: bool)
      requires Valid() && Running() && |received| == cb.txlen
      modifies rx, this`nullRx, this`xfrNum
      ensures Valid() && Running()
      ensures Odd(old(xfrNum)) ==>
        ok && nullRx == 0 && xfrNum == old(xfrNum) && rx[..] == old(rx[..])
      ensures !Odd(old(xfrNum)) ==>
        && rx[..cb.txlen] == received && rx[cb.txlen..] == old(rx[cb.txlen..])
        && nullRx == old(nullRx)
        && (ok <==> nullRx != 0 || EchoesLast(rx[..], lastTx[..], lastTxLen, cb.txlen))
        && xfrNum == if ok then Wrap32(old(xfrNum) + 1) else old(xfrNum)
    {
      if xfrNum % 2 == 1 {
        nullRx := 0;
        ok := true;
      } else {
        forall k | 0 <= k < cb.txlen {
          rx[k] := received[k];
        }
        ok := ValidateLast(cb.txlen);
        if ok {
          xfrNum := Wrap32(xfrNum + 1);
        }
      }
    }

    /**
     * `sblinky_spi_irqm_handler`, the completion callback of a non-blocking
     * transfer of `len` bytes. False where one of the code's assertions
     * would stop the program; the state is then as that assertion left it.
     */
    method IrqmHandler(arg: CbArg?, len: int) returns (ok: bool)
      requires Valid() && 0 <= len <= BUF_LEN
      modifies lastTx, this`xfrNum, cb`transfers
      ensures Valid()
      ensures
        var argOk := arg == cbArg;
        var lenOk := cbArg == null || len == cb.txlen;
        var first := old(xfrNum) == 1;
        var dataOk := if first then AllBytes(rx[..], FIRST_REPLY, len)
                      else nullRx != 0 || EchoesLast(rx[..], old(lastTx[..]), lastTxLen, len);
        && (ok <==> argOk && lenOk && dataOk)
        && cb.transfers == (if argOk && cbArg != null && lenOk then old(cb.transfers) + 1 else old(cb.transfers))
        && (if ok && first then lastTx[..len] == tx[..len] && lastTx[len..] == old(lastTx[len..])
            else lastTx[..] == old(lastTx[..]))
        && xfrNum == if ok then Wrap32(old(xfrNum) + 1) else old(xfrNum)
    {
      if arg != cbArg {
        return false;
      }
      if cbArg != null {
        if len != cb.txlen {
          return false;
        }
        cb.transfers := cb.transfers + 1;
      }
      if xfrNum == 1 {
        var i := 0;
        while i < len
          invariant 0 <= i <= len
          invariant forall k :: 0 <= k < i ==> rx[k] == FIRST_REPLY
        {
          if rx[i] != FIRST_REPLY {
            return false;
          }
          i := i + 1;
        }
        forall k | 0 <= k < len {
          lastTx[k] := tx[k];
        }
      } else {
        ok := ValidateLast(len);
        if !ok {
          return false;
        }
      }
      xfrNum := Wrap32(xfrNum + 1);
      ok := true;
    }
  }

  // ---------------------------------------------------------------------
  // The slave
  // ---------------------------------------------------------------------

  /** The slave build's globals. */
  class SpiSlave {
    const tx: array<byte>       // g_spi_tx_buf
    const rx: array<byte>       // g_spi_rx_buf
    const prevBuf: array<byte>  // prev_buf
    const cb: CbArg             // spi_cb_obj
    var cbArg: CbArg?           // spi_cb_arg
    var xfrNum: int             // g_spi_xfr_num, a uint32_t

    ghost predicate Valid()
      reads this, cb
    {
      && tx.Length == BUF_LEN && rx.Length == BUF_LEN && prevBuf.Length == BUF_LEN
      && tx != rx && tx != prevBuf && rx != prevBuf
      && (cbArg == null || cbArg == cb)
      && 0 <= xfrNum < UINT32_MOD
      && 0 <= cb.txlen <= BUF_LEN
    }

    /** Zero-initialised globals. */
    constructor ()
      ensures Valid() && fresh(tx) && fresh(rx) && fresh(prevBuf) && fresh(cb)
      ensures tx[..] == seq(BUF_LEN, _ => 0) && rx[..] == seq(BUF_LEN, _ => 0)
      ensures prevBuf[..] == seq(BUF_LEN, _ => 0)
      ensures cbArg == null && xfrNum == 0
      ensures cb.transfers == 0 && cb.txlen == 0 && cb.txRxBytes == 0
    {
      tx := new byte[BUF_LEN](_ => 0);
      rx := new byte[BUF_LEN](_ => 0);
      prevBuf := new byte[BUF_LEN](_ => 0);
      cb := new CbArg();
      cbArg := null;
      xfrNum := 0;
    }

    /** The start of the slave's `task1_handler`: install the callback argument, fill the buffer with 0x77. */
    method Start()
      requires Valid()
      modifies tx, this`cbArg
      ensures Valid() && cbArg == cb
      ensures tx[..] == seq(BUF_LEN, _ => DEFAULT_TX)
    {
      cbArg := cb;
      forall k | 0 <= k < BUF_LEN {
        tx[k] := DEFAULT_TX;
      }
    }

    /**
     * One pass of the slave loop, after a transfer has completed: on the
     * first wake-up answer with 0x88; afterwards keep the previous transmit
     * buffer and answer with the bytes just received, padded with 0xaa.
     */
    method Iteration()
      requires Valid()
      modifies tx, prevBuf, this`xfrNum
      ensures Valid()
      ensures old(xfrNum) == 0 ==>
        tx[..] == seq(BUF_LEN, _ => FIRST_REPLY) && prevBuf[..] == old(prevBuf[..])
      ensures old(xfrNum) != 0 ==>
        tx[..] == EchoBuffer(old(rx[..]), cb.txlen) && prevBuf[..] == old(tx[..])
      ensures xfrNum == Wrap32(old(xfrNum) + 1)
    {
      if xfrNum == 0 {
        forall k | 0 <= k < BUF_LEN {
          tx[k] := FIRST_REPLY;
        }
      } else {
        forall k | 0 <= k < BUF_LEN {
          prevBuf[k] := tx[k];
        }
        forall k | 0 <= k < BUF_LEN {
          tx[k] := ECHO_PAD;
        }
        forall k | 0 <= k < cb.txlen {
          tx[k] := rx[k];
        }
        assert tx[..] == EchoBuffer(rx[..], cb.txlen);
      }
      xfrNum := Wrap32(xfrNum + 1);
    }

    /**
     * `sblinky_spi_irqs_handler`, the completion callback of a transfer of
     * `len` bytes. False where the code's assertion would stop the program.
     */
    method IrqsHandler(arg: CbArg?, len: int) returns (ok: bool)
      requires Valid() && 0 <= len <= BUF_LEN
      modifies cb
      ensures Valid()
      ensures ok <==> arg == cbArg
      ensures ok && cbArg != null ==>
        && cb.transfers == old(cb.transfers) + 1
        && cb.txRxBytes == Wrap32(old(cb.txRxBytes) + len)
        && cb.txlen == len
      ensures !(ok && cbArg != null) ==> unchanged(cb)
    {
      if arg != cbArg {
        return false;
      }
      if cbArg != null {
        cb.transfers := cb.transfers + 1;
        cb.txRxBytes := Wrap32(cb.txRxBytes + len);
        cb.txlen := len;
      }
      ok := true;
    }
  }
}
