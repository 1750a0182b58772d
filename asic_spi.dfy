/** The register transport (`asic_spi.c`): the 29-bit command word, the
    transactions the driver issues, and the driver's global state.

    The physical SPI link is not modelled. Every transaction is answered by
    an oracle, indexed by the number of transactions issued before it, that
    says what the two transfers of the transaction report and what word the
    chip sent back. */
module AsicSpi {
  import opened AsicCommon

  // ---------------------------------------------------------------------
  // Command word: 28:26 device, 25:18 register, 17:16 operation, 15:0 data
  // ---------------------------------------------------------------------

  const WRITE_OP: bv32 := 0x00
  const READ_OP: bv32 := 0x01

  function DevField(w: bv32): bv32 { (w >> 26) & 0x7 }
  function RegField(w: bv32): bv32 { (w >> 18) & 0xFF }
  function OpField(w: bv32): bv32 { (w >> 16) & 0x3 }
  function PayloadField(w: bv32): bv32 { w & 0xFFFF }

  /** A command word taken apart into its four fields. */
  datatype Command = Command(dev: bv32, reg: bv32, op: bv32, payload: bv32)
  {
    predicate Valid() { dev < 8 && reg < 256 && op < 4 && payload < 0x1_0000 }
  }

  /** The field layout of the command word, on `uint32_t`: bits shifted past
      bit 31 are lost. */
  function Encode(c: Command): bv32 {
    (c.dev << 26) | (c.reg << 18) | (c.op << 16) | c.payload
  }

  function Decode(w: bv32): (c: Command)
    ensures c.Valid()
  {
    Command(DevField(w), RegField(w), OpField(w), PayloadField(w))
  }

  /** Every field survives encoding. */
  lemma DecodeEncode(c: Command)
    requires c.Valid()
    ensures Decode(Encode(c)) == c
  {
  }

  /** Every 29-bit word is the encoding of its fields. */
  lemma EncodeDecode(w: bv32)
    requires w < 1 << 29
    ensures Encode(Decode(w)) == w
  {
  }

  /** The device address is not range-checked: the device field keeps its low
      three bits, and the word fits the 29 bits the link sends iff bits 5:3 of
      the address are clear (bits above 5 are shifted out of the word). */
  lemma EncodeAnyDevice(c: Command)
    requires c.reg < 256 && c.op < 4 && c.payload < 0x1_0000
    ensures Decode(Encode(c)) == Command(c.dev & 0x7, c.reg, c.op, c.payload)
    ensures Encode(c) < 1 << 29 <==> (c.dev >> 3) & 0x7 == 0
  {
  }

  /** The packet of `asic_write`, built by the same successive shifts. */
  function WritePacket(dev: bv32, reg: RegId, data: Word): bv32 {
    var p0 := dev;
    var p1 := (p0 << 8) | (reg as bv32);
    var p2 := (p1 << 2) | WRITE_OP;
    (p2 << 16) | (data as bv32)
  }

  /** The packet of `asic_read`: operation 1 and an all-zero payload. */
  function ReadPacket(dev: bv32, reg: RegId): bv32 {
    var p0 := dev;
    var p1 := (p0 << 8) | (reg as bv32);
    var p2 := (p1 << 2) | READ_OP;
    p2 << 16
  }

  /** The successive shifts of the transport put each field in its place
      (`dev << 26 | reg << 18 | op << 16 | data`, modulo 2^32). */
  lemma PacketLayout(dev: bv32, reg: RegId, data: Word)
    ensures WritePacket(dev, reg, data) == Encode(Command(dev, reg as bv32, WRITE_OP, data as bv32))
    ensures ReadPacket(dev, reg) == Encode(Command(dev, reg as bv32, READ_OP, 0))
  {
  }

  // ---------------------------------------------------------------------
  // Transactions, frames on the wire, the oracle
  // ---------------------------------------------------------------------

  /** A logical transaction, with the device address it was issued to. */
  datatype Txn = WriteTx(dev: bv32, reg: RegId, data: Word) | ReadTx(dev: bv32, reg: RegId)

  /** The command word of a transaction, as the transport builds it. */
  function Packet(t: Txn): bv32 {
    match t
    case WriteTx(d, r, v) => WritePacket(d, r, v)
    case ReadTx(d, r) => ReadPacket(d, r)
  }

  /** A write packet carries the low three bits of the device address, the
      register, operation 0 and the data. */
  lemma DecodeWritePacket(dev: bv32, reg: RegId, data: Word)
    requires reg < 256
    ensures Decode(WritePacket(dev, reg, data)) == Command(dev & 0x7, reg as bv32, WRITE_OP, data as bv32)
  {
  }

  /** A read packet carries the low three bits of the device address, the
      register, operation 1 and an all-zero payload. */
  lemma DecodeReadPacket(dev: bv32, reg: RegId)
    requires reg < 256
    ensures Decode(ReadPacket(dev, reg)) == Command(dev & 0x7, reg as bv32, READ_OP, 0)
  {
  }

  /** For a register below 256 the packet of every transaction carries the
      low three bits of the device address it was issued to, the register, the
      operation (0 write, 1 read) and the data (zero for a read). */
  lemma DecodePacket(t: Txn)
    requires t.reg < 256
    ensures Decode(Packet(t)) == Command(t.dev & 0x7, t.reg as bv32,
                                         if t.WriteTx? then WRITE_OP else READ_OP,
                                         if t.WriteTx? then t.data as bv32 else 0)
  {
    match t
    case WriteTx(d, r, v) =>
      assert Packet(t) == WritePacket(d, r, v);
      DecodeWritePacket(d, r, v);
    case ReadTx(d, r) =>
      assert Packet(t) == ReadPacket(d, r);
      DecodeReadPacket(d, r);
  }

  /** One SPI transfer on the wire: the word sent and whether chip select was
      asserted during it. */
  datatype Frame = Frame(csAsserted: bool, word: bv32)

  /** Every transaction is sent twice: a disposable reset transfer with chip
      select deasserted, then the addressed transfer with chip select asserted. */
  function TxnFrames(t: Txn): seq<Frame> {
    [Frame(false, Packet(t)), Frame(true, Packet(t))]
  }

  function Frames(log: seq<Txn>): (w: seq<Frame>)
    ensures |w| == 2 * |log|
  {
    if log == [] then [] else Frames(log[..|log| - 1]) + TxnFrames(log[|log| - 1])
  }

  lemma FramesSnoc(log: seq<Txn>, t: Txn)
    ensures Frames(log + [t]) == Frames(log) + [Frame(false, Packet(t))] + [Frame(true, Packet(t))]
  {
    assert (log + [t])[..|log|] == log;
  }

  /** Frame 2k and 2k+1 of the wire both carry the k-th transaction's packet;
      only the second is sent with chip select asserted. */
  lemma {:induction false} FramesAt(log: seq<Txn>, k: nat)
    requires k < |log|
    ensures Frames(log)[2 * k] == Frame(false, Packet(log[k]))
    ensures Frames(log)[2 * k + 1] == Frame(true, Packet(log[k]))
  {
    var n := |log| - 1;
    if k < n {
      FramesAt(log[..n], k);
      assert log[..n][k] == log[k];
    }
  }

  const ARM_DRIVER_OK: int := 0

  /** What the link reports for one transaction: the status of the reset
      transfer, the status of the addressed transfer, and the word received
      during the addressed transfer. */
  datatype Reply = Reply(resetStatus: int, status: int, rx: bv32)

  type Oracle = nat -> Reply

  /** The reply to transaction number `i`. */
  function ReplyAt(o: Oracle, i: nat): Reply {
    o(i)
  }

  /** A transaction succeeds iff its addressed transfer reports OK; the reset
      transfer's status is overwritten before it is tested. */
  function StatusAt(o: Oracle, i: nat): (s: State)
    ensures s.Success? <==> ReplyAt(o, i).status == ARM_DRIVER_OK
  {
    if ReplyAt(o, i).status != ARM_DRIVER_OK then Err else Success
  }

  /** `(uint16_t)(x & 0xFFFF)`. */
  function Low16(x: bv32): Word {
    (x & 0xFFFF) as bv16
  }

  /** A read delivers the low 16 bits of the received word. */
  function ReadValue(o: Oracle, i: nat): Word {
    Low16(ReplyAt(o, i).rx)
  }

  // ---------------------------------------------------------------------
  // Specifications of transaction sequences
  // ---------------------------------------------------------------------

  /** The transactions an operation issues and the result it returns. */
  datatype Outcome = Outcome(txns: seq<Txn>, st: State)

  /** Run `a`, and `b` after it only if `a` succeeded (the `||` chains of the
      source). `b` must be the outcome of the step started at index
      `i + |a.txns|`. */
  function Then(a: Outcome, b: Outcome): (r: Outcome)
    ensures r.st.Success? <==> (a.st.Success? && b.st.Success?)
  {
    if a.st.Err? then a else Outcome(a.txns + b.txns, b.st)
  }

  /** A method call issued exactly the transactions of `s`, after `before`,
      and returned its result. */
  ghost predicate Performed(log: seq<Txn>, before: seq<Txn>, s: Outcome, st: State) {
    log == before + s.txns && st == s.st
  }

  /** One `asic_write` issued as transaction number `i`. */
  function WriteSpec(o: Oracle, dev: bv32, i: nat, reg: RegId, v: Word): Outcome {
    Outcome([WriteTx(dev, reg, v)], StatusAt(o, i))
  }

  /** One `asic_read` issued as transaction number `i`. */
  function ReadSpec(o: Oracle, dev: bv32, i: nat, reg: RegId): Outcome {
    Outcome([ReadTx(dev, reg)], StatusAt(o, i))
  }

  /** Read-modify-write: read `reg`, and only if that succeeded write `v`
      (computed by the caller from `ReadValue(o, i)`) back to it. */
  function Rmw(o: Oracle, dev: bv32, i: nat, reg: RegId, v: Word): Outcome {
    Then(ReadSpec(o, dev, i, reg), WriteSpec(o, dev, i + 1, reg, v))
  }

  /** A failed read issues no write; a successful one is followed by exactly
      one write, whose status is the result. */
  lemma RmwShape(o: Oracle, dev: bv32, i: nat, reg: RegId, v: Word)
    ensures StatusAt(o, i).Err? ==> Rmw(o, dev, i, reg, v) == Outcome([ReadTx(dev, reg)], Err)
    ensures StatusAt(o, i).Success? ==>
      Rmw(o, dev, i, reg, v) == Outcome([ReadTx(dev, reg), WriteTx(dev, reg, v)], StatusAt(o, i + 1))
  {
  }

  /** One entry of a literal table of register writes. */
  datatype RegWrite = RegWrite(reg: RegId, value: Word)

  /** The write transactions of a table, in order. */
  function Writes(dev: bv32, ws: seq<RegWrite>): (ts: seq<Txn>)
    ensures |ts| == |ws|
    ensures forall k :: 0 <= k < |ws| ==> ts[k] == WriteTx(dev, ws[k].reg, ws[k].value)
  {
    if ws == [] then [] else [WriteTx(dev, ws[0].reg, ws[0].value)] + Writes(dev, ws[1..])
  }

  /** The position of the first failing transaction among `n` transactions
      starting at `i`, or `n` when none fails. */
  function FirstFailure(o: Oracle, i: nat, n: nat): (k: nat)
    ensures k <= n
    ensures forall j :: i <= j < i + k ==> StatusAt(o, j).Success?
    ensures k < n ==> StatusAt(o, i + k).Err?
    decreases n
  {
    if n == 0 then 0
    else if StatusAt(o, i).Err? then 0
    else 1 + FirstFailure(o, i + 1, n - 1)
  }

  /** The log and the result of a sequence of calls so far. */
  datatype Run = Run(log: seq<Txn>, st: State)

  /** The run after the transactions of `s` have been issued after `log`. */
  function Issue(log: seq<Txn>, s: Outcome): Run {
    Run(log + s.txns, s.st)
  }

  /** Continue with `s` (started after `r.log`) only if `r` succeeded: one
      link of the `||` chains of the source. */
  function Next(r: Run, s: Run): Run {
    if r.st.Err? then r else s
  }

  /** One more write of a chain that stops at the first failure. */
  function ChainWrite(o: Oracle, dev: bv32, r: Run, w: RegWrite): Run {
    Next(r, Issue(r.log, WriteSpec(o, dev, |r.log|, w.reg, w.value)))
  }

  /** Issue the writes of `ws` in order after `r`, stopping at the first
      failure. */
  function ChainWrites(o: Oracle, dev: bv32, r: Run, ws: seq<RegWrite>): Run
    decreases |ws|
  {
    if ws == [] then r else ChainWrites(o, dev, ChainWrite(o, dev, r, ws[0]), ws[1..])
  }

  /** A failed run issues nothing more. */
  lemma {:induction false} ChainWritesAfterFailure(o: Oracle, dev: bv32, r: Run, ws: seq<RegWrite>)
    requires r.st.Err?
    ensures ChainWrites(o, dev, r, ws) == r
    decreases |ws|
  {
    if ws != [] {
      ChainWritesAfterFailure(o, dev, r, ws[1..]);
    }
  }

  /** Two tables issued one after the other are one chain. */
  lemma {:induction false} ChainWritesAppend(o: Oracle, dev: bv32, r: Run, a: seq<RegWrite>, b: seq<RegWrite>)
    ensures ChainWrites(o, dev, r, a + b) == ChainWrites(o, dev, ChainWrites(o, dev, r, a), b)
    decreases |a|
  {
    if a == [] {
      assert a + b == b;
    } else {
      assert (a + b)[0] == a[0];
      assert (a + b)[1..] == a[1..] + b;
      ChainWritesAppend(o, dev, ChainWrite(o, dev, r, a[0]), a[1..], b);
    }
  }

  /** The first write of a chain fails: the chain ends there. */
  lemma ChainFirstFails(o: Oracle, dev: bv32, log: seq<Txn>, ws: seq<RegWrite>)
    requires ws != [] && StatusAt(o, |log|).Err?
    ensures ChainWrites(o, dev, Run(log, Success), ws) == Run(log + Writes(dev, ws[..1]), Err)
  {
    ChainWritesAfterFailure(o, dev, Run(log + [WriteTx(dev, ws[0].reg, ws[0].value)], Err), ws[1..]);
  }

  /** The first write of a chain succeeds: the rest of the table follows it. */
  lemma ChainFirstSucceeds(o: Oracle, dev: bv32, log: seq<Txn>, ws: seq<RegWrite>)
    requires ws != [] && StatusAt(o, |log|).Success?
    ensures ChainWrites(o, dev, Run(log, Success), ws)
      == ChainWrites(o, dev, Run(log + Writes(dev, ws[..1]), Success), ws[1..])
  {
    assert Writes(dev, ws[..1]) == [WriteTx(dev, ws[0].reg, ws[0].value)];
  }

  /** The writes of a prefix of a table: its first write, then the rest. */
  lemma WritesPrefix(dev: bv32, log: seq<Txn>, ws: seq<RegWrite>, n: nat)
    requires 1 <= n <= |ws|
    ensures log + Writes(dev, ws[..n]) == (log + Writes(dev, ws[..1])) + Writes(dev, ws[1..][..n - 1])
  {
    assert ws[..n][1..] == ws[1..][..n - 1];
    assert ws[..n][..1] == ws[..1];
  }

  /** A write chain started on a good run issues the table up to and
      including its first failing write, and succeeds iff no write fails. */
  lemma {:induction false} ChainWritesIssues(o: Oracle, dev: bv32, log: seq<Txn>, ws: seq<RegWrite>)
    ensures var k := FirstFailure(o, |log|, |ws|);
      ChainWrites(o, dev, Run(log, Success), ws)
        == Run(log + Writes(dev, ws[..if k == |ws| then k else k + 1]), if k == |ws| then Success else Err)
    decreases |ws|
  {
    if ws == [] {
      assert log + Writes(dev, ws[..0]) == log;
    } else if StatusAt(o, |log|).Err? {
      ChainFirstFails(o, dev, log, ws);
    } else {
      var log' := log + Writes(dev, ws[..1]);
      var rest := ws[1..];
      ChainFirstSucceeds(o, dev, log, ws);
      ChainWritesIssues(o, dev, log', rest);
      var k := FirstFailure(o, |log|, |ws|);
      var k' := FirstFailure(o, |log'|, |rest|);
      assert k == 1 + k';
      var m := if k == |ws| then k else k + 1;
      var m' := if k' == |rest| then k' else k' + 1;
      var st := if k == |ws| then Success else Err;
      assert m' == m - 1 && st == (if k' == |rest| then Success else Err);
      WritesPrefix(dev, log, ws, m);
      calc {
        ChainWrites(o, dev, Run(log, Success), ws);
        ChainWrites(o, dev, Run(log', Success), rest);
        Run(log' + Writes(dev, rest[..m']), st);
        Run(log + Writes(dev, ws[..m]), st);
      }
    }
  }

  /** A one-entry table is a single write. */
  lemma ChainOneWrite(o: Oracle, dev: bv32, log: seq<Txn>, w: RegWrite)
    ensures ChainWrites(o, dev, Run(log, Success), [w]) == Issue(log, WriteSpec(o, dev, |log|, w.reg, w.value))
  {
    assert [w][1..] == [];
  }

  /** A chain over `a + b`: once the writes of `a` have produced `r`, the
      chain ends there if `r` failed and goes on with `b` otherwise. */
  lemma ChainWritesThen(o: Oracle, dev: bv32, log: seq<Txn>, a: seq<RegWrite>, b: seq<RegWrite>, r: Run)
    requires r == ChainWrites(o, dev, Run(log, Success), a)
    ensures ChainWrites(o, dev, Run(log, Success), a + b)
      == if r.st.Err? then r else ChainWrites(o, dev, Run(r.log, Success), b)
  {
    ChainWritesAppend(o, dev, Run(log, Success), a, b);
    if r.st.Err? {
      ChainWritesAfterFailure(o, dev, r, b);
    }
  }

  /** The number of reads of `reg` in a transaction sequence. */
  function ReadsOf(ts: seq<Txn>, dev: bv32, reg: RegId): nat {
    if ts == [] then 0
    else ReadsOf(ts[..|ts| - 1], dev, reg) + (if ts[|ts| - 1] == ReadTx(dev, reg) then 1 else 0)
  }

  lemma {:induction false} ReadsOfAppend(a: seq<Txn>, b: seq<Txn>, dev: bv32, reg: RegId)
    ensures ReadsOf(a + b, dev, reg) == ReadsOf(a, dev, reg) + ReadsOf(b, dev, reg)
    decreases |b|
  {
    if b == [] {
      assert a + b == a;
    } else {
      var b' := b[..|b| - 1];
      assert (a + b)[..|a + b| - 1] == a + b';
      ReadsOfAppend(a, b', dev, reg);
    }
  }

  // ---------------------------------------------------------------------
  // Driver state
  // ---------------------------------------------------------------------

  /** `ARM_DRIVER_SPI*`: a link driver or NULL. */
  datatype Link = NoLink | Link(id: nat)

  /** A function pointer: NULL, one supplied by the caller, or the transport's
      own busy-flag `lock`/`unlock`. */
  datatype Callback = Null | Supplied(id: nat) | InternalLock | InternalUnlock

  /** `asic_spi_struct`, owned by the caller and updated through the pointer
      the transport keeps. */
  class SpiHandle {
    var spi: Link
    var lockSem: Callback
    var unlockSem: Callback
    var setCS: Callback
    var clearCS: Callback

    constructor (spi: Link, lockSem: Callback, unlockSem: Callback, setCS: Callback, clearCS: Callback)
      ensures this.spi == spi && this.lockSem == lockSem && this.unlockSem == unlockSem
      ensures this.setCS == setCS && this.clearCS == clearCS
    {
      this.spi := spi;
      this.lockSem := lockSem;
      this.unlockSem := unlockSem;
      this.setCS := setCS;
      this.clearCS := clearCS;
    }
  }

  /** The checks `asic_initSPI` makes before touching the link. */
  predicate HandleAccepted(spi: Link, setCS: Callback, clearCS: Callback) {
    spi != NoLink && setCS != Null && clearCS != Null
  }

  /** The transport's global state: the handle, the device address, the
      transactions issued so far and the frames sent on the wire. */
  class Asic {
    var handle: SpiHandle?
    var address: bv32
    var log: seq<Txn>
    var wire: seq<Frame>
    const oracle: Oracle

    ghost predicate Valid()
      reads this`log, this`wire
    {
      wire == Frames(log)
    }

    /** Everything `asic_write` and `asic_read` dereference is non-NULL. */
    ghost predicate Usable()
      reads this`handle, handle
    {
      && handle != null
      && HandleAccepted(handle.spi, handle.setCS, handle.clearCS)
      && handle.lockSem != Null && handle.unlockSem != Null
    }

    ghost predicate Ready()
      reads this, handle
    {
      Valid() && Usable()
    }

    /** The state at start-up: no handle, device address 0, nothing issued. */
    constructor (oracle: Oracle)
      ensures Valid() && this.oracle == oracle
      ensures handle == null && address == 0 && log == [] && wire == []
    {
      this.oracle := oracle;
      handle := null;
      address := 0;
      log := [];
      wire := [];
    }

    /** `asic_initSPI`. The handle is stored before it is checked. `linkOk`
        stands for the three link calls (Initialize, PowerControl, Control)
        all returning OK; they are reached only when the checks pass. */
    method InitSPI(h: SpiHandle?, linkOk: bool) returns (st: State)
      modifies this`handle, h
      ensures handle == h
      ensures h != null ==> h.spi == old(h.spi) && h.setCS == old(h.setCS) && h.clearCS == old(h.clearCS)
      ensures st.Success? <==> h != null && HandleAccepted(h.spi, h.setCS, h.clearCS) && linkOk
      ensures h != null && HandleAccepted(h.spi, h.setCS, h.clearCS) ==>
        if old(h.lockSem) == Null || old(h.unlockSem) == Null
        then h.lockSem == InternalLock && h.unlockSem == InternalUnlock
        else h.lockSem == old(h.lockSem) && h.unlockSem == old(h.unlockSem)
      ensures h != null && !HandleAccepted(h.spi, h.setCS, h.clearCS) ==>
        h.lockSem == old(h.lockSem) && h.unlockSem == old(h.unlockSem)
      ensures h != null && HandleAccepted(h.spi, h.setCS, h.clearCS) ==> Usable()
    {
      handle := h;
      if h == null || h.spi == NoLink {
        return Err;
      }
      if h.setCS == Null || h.clearCS == Null {
        return Err;
      }
      if h.lockSem == Null || h.unlockSem == Null {
        h.lockSem := InternalLock;
        h.unlockSem := InternalUnlock;
      }
      if !linkOk {
        return Err;
      }
      return Success;
    }

    /** `asic_setAddress`: no bounds check, always succeeds. */
    method SetAddress(a: bv32) returns (st: State)
      modifies this`address
      ensures address == a && st == Success
    {
      address := a;
      return Success;
    }

    /** `asic_write`: one write transaction, answered by reply number |log|. */
    method Write(reg: RegId, data: Word) returns (st: State)
      requires Ready()
      modifies this`log, this`wire
      ensures Ready()
      ensures log == old(log) + [WriteTx(address, reg, data)]
      ensures st == StatusAt(oracle, |old(log)|)
    {
      var packet := Packet(WriteTx(address, reg, data));
      var reply := ReplyAt(oracle, |log|);
      var status := reply.resetStatus;
      wire := wire + [Frame(false, packet)];
      status := reply.status;
      wire := wire + [Frame(true, packet)];
      FramesSnoc(log, WriteTx(address, reg, data));
      log := log + [WriteTx(address, reg, data)];
      if ARM_DRIVER_OK != status {
        return Err;
      }
      return Success;
    }

    /** `asic_read`: `data` is the caller's variable behind the out-pointer;
        it is overwritten only when the addressed transfer succeeds. */
    method Read(reg: RegId, data: Word) returns (st: State, out: Word)
      requires Ready()
      modifies this`log, this`wire
      ensures Ready()
      ensures log == old(log) + [ReadTx(address, reg)]
      ensures st == StatusAt(oracle, |old(log)|)
      ensures out == if st.Success? then ReadValue(oracle, |old(log)|) else data
    {
      var packet := Packet(ReadTx(address, reg));
      var reply := ReplyAt(oracle, |log|);
      var status := reply.resetStatus;
      wire := wire + [Frame(false, packet)];
      status := reply.status;
      var readData := reply.rx;
      wire := wire + [Frame(true, packet)];
      FramesSnoc(log, ReadTx(address, reg));
      log := log + [ReadTx(address, reg)];
      out := data;
      if ARM_DRIVER_OK != status {
        return Err, out;
      }
      out := Low16(readData);
      return Success, out;
    }
  }
}
