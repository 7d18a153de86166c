/** SPI framing of the host bus (src/bus.rs) against a slave with
    region-dependent read latency. */
module Spi {
  import opened Bytes

  const FAST_READ := 0x0b
  const WRITE := 0x02
  const INCREMENTING := 0x80_0000
  const READ_HEADER_LEN := 5
  const MAX_DATA_LEN := 4096
  const MAX_LATENCY_BYTES := 32
  const IO_BUFFER_LEN := READ_HEADER_LEN + MAX_LATENCY_BYTES + MAX_DATA_LEN

  /** The two Nordic presets: no read latency, or the memory-map table. Both use
      incrementing addresses and no configured latency words. */
  datatype Preset = NordicDefault | NordicMemoryMap

  /** `memory_map_latency_words`. */
  function MapLatency(a: nat): nat {
    if a <= 0x0f0fff then LowLatency(a)
    else if HighOneWord(a) then 1
    else 0
  }

  function LowLatency(a: nat): nat {
    if a <= 0x008fff then 1
    else if a <= 0x03ffff then 2
    else if a <= 0x07ffff then 1
    else if a <= 0x092000 then 2
    else 0
  }

  predicate HighOneWord(a: nat) {
    || 0x100000 <= a <= 0x134000 || 0x140000 <= a <= 0x14c000 || 0x180000 <= a <= 0x190000
    || 0x200000 <= a <= 0x261800 || 0x280000 <= a <= 0x2a4000 || 0x300000 <= a <= 0x338000
  }

  function Latency(preset: Preset, a: nat): (words: nat)
    ensures 4 * words <= MAX_LATENCY_BYTES
  {
    match preset
    case NordicDefault => 0
    case NordicMemoryMap => MapLatency(a)
  }

  /** One latency for a whole transfer. */
  predicate Steady(preset: Preset, a: nat, n: nat) {
    forall k | a <= k < a + n :: Latency(preset, k) == Latency(preset, a)
  }

  // -------------------------------------------------------------------- slave

  type Memory = m: seq<byte> | |m| == INCREMENTING ghost witness Zeros(INCREMENTING)

  function Splice(m: seq<byte>, a: nat, data: seq<byte>): (r: seq<byte>)
    requires a + |data| <= |m|
    ensures |r| == |m|
  {
    m[..a] + data + m[a + |data|..]
  }

  function Address24(tx: seq<byte>): nat
    requires |tx| >= 4
  {
    (tx[1] as int) * 65536 + (tx[2] as int) * 256 + tx[3] as int
  }

  function AddressBytes(a: nat): (s: seq<byte>)
    ensures |s| == 3
  {
    [(a / 65536) % 256, (a / 256) % 256, a % 256]
  }

  lemma AddressRoundTrip(opcode: byte, a: nat, rest: seq<byte>)
    requires a < 0x100_0000
    ensures Address24([opcode] + AddressBytes(a) + rest) == a
  {
  }

  /** How one transaction ends: complete, or failed after some payload bytes. */
  datatype Ending = Complete | CutAfter(n: nat)

  /** The nRF70 end of the bus. A block write needs an incrementing address. A
      transaction with no ending scheduled completes. */
  class Slave {
    const preset: Preset
    var memory: Memory
    var endings: seq<Ending>

    constructor (preset: Preset, memory: Memory, endings: seq<Ending>)
      ensures this.preset == preset && this.memory == memory && this.endings == endings
    {
      this.preset := preset;
      this.memory := memory;
      this.endings := endings;
    }

    /** No transaction to come fails. */
    predicate Healthy()
      reads this`endings
    {
      forall i | 0 <= i < |endings| :: endings[i].Complete?
    }

    method NextEnding() returns (e: Ending)
      modifies this`endings
      ensures old(Healthy()) ==> e.Complete? && Healthy()
    {
      e := Complete;
      if endings != [] {
        e := endings[0];
        endings := endings[1..];
      }
    }

    /** A page-program transaction: `sent` bytes of the payload arrive. */
    method Receive(tx: seq<byte>) returns (ok: bool, ghost sent: nat)
      requires |tx| >= 4 && tx[0] == WRITE && INCREMENTING <= Address24(tx)
      requires Address24(tx) - INCREMENTING + |tx| - 4 <= INCREMENTING
      modifies this
      ensures sent <= |tx| - 4 && (ok ==> sent == |tx| - 4)
      ensures memory == Splice(old(memory), Address24(tx) - INCREMENTING, tx[4..][..sent])
      ensures old(Healthy()) ==> ok && Healthy()
    {
      var e := NextEnding();
      ok := e.Complete?;
      var count := if ok || |tx| - 4 < e.n then |tx| - 4 else e.n;
      memory := Splice(memory, Address24(tx) - INCREMENTING, tx[4..][..count]);
      sent := count;
    }

    /** What a fast read shifts out: the data follows the header and the latency
        of the region. Without an incrementing address one word is read; a
        transfer across regions of different latency reads nothing useful. */
    function Answer(tx: seq<byte>): (rx: seq<byte>)
      requires |tx| >= READ_HEADER_LEN && tx[0] == FAST_READ
      reads this`memory
      ensures |rx| == |tx|
    {
      var a := Address24(tx) % INCREMENTING;
      var start := READ_HEADER_LEN + 4 * Latency(preset, a);
      var n := |tx| - start;
      if 0 <= n && a + n <= INCREMENTING && (INCREMENTING <= Address24(tx) || n <= 4) && Steady(preset, a, n)
      then Zeros(start) + memory[a..a + n] else Zeros(|tx|)
    }
  }

  // ---------------------------------------------------------------- transport

  class SpiTransport {
    const slave: Slave
    const io: array<byte>

    predicate Valid() {
      io.Length == IO_BUFFER_LEN
    }

    constructor (slave: Slave)
      ensures Valid() && this.slave == slave && fresh(io)
    {
      this.slave := slave;
      io := new byte[IO_BUFFER_LEN](i => 0);
    }

    function Preset(): Preset {
      slave.preset
    }

    /** `SpiTransport::write`: one transaction for each 4096 bytes, up to the
        first that fails. What arrives is a prefix of the data. */
    method Write(address: nat, data: seq<byte>) returns (ok: bool, ghost sent: nat)
      requires Valid() && address + |data| <= INCREMENTING
      modifies slave, io
      ensures sent <= |data| && (ok ==> sent == |data|)
      ensures slave.memory == Splice(old(slave.memory), address, data[..sent])
      ensures old(slave.Healthy()) ==> ok && slave.Healthy()
    {
      var done := 0;
      sent := 0;
      assert Splice(slave.memory, address, data[..0]) == slave.memory;
      while done < |data|
        invariant done == sent <= |data|
        invariant slave.memory == Splice(old(slave.memory), address, data[..done])
        invariant old(slave.Healthy()) ==> slave.Healthy()
      {
        var count := if MAX_DATA_LEN < |data| - done then MAX_DATA_LEN else |data| - done;
        var chunk := data[done..done + count];
        ghost var arrived;
        ok, arrived := Program(address + done, chunk);
        SpliceTwice(old(slave.memory), address, data[..done], chunk[..arrived]);
        assert data[..done] + chunk[..arrived] == data[..done + arrived];
        sent := done + arrived;
        if !ok {
          return;
        }
        done := done + count;
      }
      ok := true;
    }

    /** One page-program transaction built in the reused buffer. */
    method Program(address: nat, chunk: seq<byte>) returns (ok: bool, ghost arrived: nat)
      requires Valid() && 0 < |chunk| <= MAX_DATA_LEN && address + |chunk| <= INCREMENTING
      modifies slave, io
      ensures arrived <= |chunk| && (ok ==> arrived == |chunk|)
      ensures slave.memory == Splice(old(slave.memory), address, chunk[..arrived])
      ensures old(slave.Healthy()) ==> ok && slave.Healthy()
    {
      var wire := address + INCREMENTING;
      io[0] := WRITE;
      CopyInto(AddressBytes(wire), io, 1);
      CopyInto(chunk, io, 4);
      var tx := io[..4 + |chunk|];
      assert tx == [WRITE] + AddressBytes(wire) + chunk;
      AddressRoundTrip(WRITE, wire, chunk);
      ok, arrived := slave.Receive(tx);
      if ok {
        CopyInto(Zeros(4 + |chunk|), io, 0);
      }
    }

    /** `SpiTransport::read` into `out[at..at + n]`, up to the first transaction
        that fails. */
    method Read(address: nat, out: array<byte>, at: nat, n: nat) returns (ok: bool)
      requires Valid() && out != io && at + n <= out.Length && address + n <= INCREMENTING
      requires address % 4 == 0
      modifies slave`endings, io, out
      ensures out[..at] == old(out[..at]) && out[at + n..] == old(out[at + n..])
      ensures ok && Steady(slave.preset, address, n) ==> out[at..at + n] == slave.memory[address..address + n]
      ensures old(slave.Healthy()) ==> ok && slave.Healthy()
    {
      if n == 0 {
        return true;
      }
      var word := slave.preset == NordicMemoryMap && Latency(slave.preset, address) != 0;
      var unit := if word then 4 else MAX_DATA_LEN;
      ok := ReadUnits(address, out, at, n, unit, !word);
    }

    /** `read_word_at_a_time` and `read_incrementing`: transfers of at most
        `unit` bytes. */
    method ReadUnits(address: nat, out: array<byte>, at: nat, n: nat, unit: nat, incrementing: bool)
      returns (ok: bool)
      requires Valid() && out != io && at + n <= out.Length && address + n <= INCREMENTING
      requires if incrementing then unit == MAX_DATA_LEN else unit == 4
      modifies slave`endings, io, out
      ensures out[..at] == old(out[..at]) && out[at + n..] == old(out[at + n..])
      ensures ok && Steady(slave.preset, address, n) ==> out[at..at + n] == slave.memory[address..address + n]
      ensures old(slave.Healthy()) ==> ok && slave.Healthy()
    {
      hide Steady, Latency, Slave.Healthy;
      var done := 0;
      while done < n
        invariant done <= n
        invariant out[..at] == old(out[..at]) && out[at + n..] == old(out[at + n..])
        invariant Steady(slave.preset, address, n) ==>
                    out[at..at + done] == slave.memory[address..address + done]
        invariant old(slave.Healthy()) ==> slave.Healthy()
      {
        var count := if unit < n - done then unit else n - done;
        ghost var before := out[..];
        ok := ReadOne(address + done, out, at + done, count, incrementing);
        EndsKept(before, out[..], at, at + n, at + done, at + done + count);
        if !ok {
          return;
        }
        if Steady(slave.preset, address, n) {
          SteadyPart(slave.preset, address, n, done, count);
          PartsRead(before, out[..], at, slave.memory, address, done, count);
        }
        done := done + count;
      }
      ok := true;
    }

    /** `read_one`: header, latency words, then the data. */
    method ReadOne(address: nat, out: array<byte>, at: nat, n: nat, incrementing: bool) returns (ok: bool)
      requires Valid() && out != io && at + n <= out.Length && address + n <= INCREMENTING
      requires 0 < n <= MAX_DATA_LEN && (incrementing || n <= 4)
      modifies slave`endings, io, out
      ensures out[..at] == old(out[..at]) && out[at + n..] == old(out[at + n..])
      ensures ok && Steady(slave.preset, address, n) ==> out[at..at + n] == slave.memory[address..address + n]
      ensures !ok ==> out[..] == old(out[..])
      ensures old(slave.Healthy()) ==> ok && slave.Healthy()
    {
      hide Latency, Steady, AddressBytes, Slave.Healthy;
      var start := READ_HEADER_LEN + 4 * Latency(slave.preset, address);
      ok := Fetch(address, start, n, incrementing);
      if ok {
        CopyInto(io[start..start + n], out, at);
        CopyInto(Zeros(start + n), io, 0);
      }
    }

    /** One fast-read transaction in the reused buffer. */
    method Fetch(address: nat, start: nat, n: nat, incrementing: bool) returns (ok: bool)
      requires Valid() && address + n <= INCREMENTING && address < INCREMENTING
      requires 0 < n <= MAX_DATA_LEN && (incrementing || n <= 4)
      requires start == READ_HEADER_LEN + 4 * Latency(slave.preset, address)
      modifies slave`endings, io
      ensures ok && Steady(slave.preset, address, n) ==> io[start..start + n] == slave.memory[address..address + n]
      ensures old(slave.Healthy()) ==> ok && slave.Healthy()
    {
      hide Latency, Steady, Slave.Answer, Address24, Slave.Healthy;
      BuildRead(if incrementing then address + INCREMENTING else address, start, n);
      if Steady(slave.preset, address, n) {
        AnswerData(slave, io[..start + n], address, start, n, incrementing);
      }
      ok := Exchange(start + n);
      assert io[start..start + n] == io[..start + n][start..];
    }

    /** A zero-filled header with latency clocks, then the over-read filler. */
    method BuildRead(wire: nat, start: nat, n: nat)
      requires Valid() && wire < 0x100_0000 && READ_HEADER_LEN <= start && start + n <= io.Length
      modifies io
      ensures io[0] == FAST_READ && Address24(io[..start + n]) == wire
    {
      CopyInto(Zeros(start) + seq(n, i => 0xff), io, 0);
      io[0] := FAST_READ;
      CopyInto(AddressBytes(wire), io, 1);
      var tx := io[..start + n];
      assert tx == [FAST_READ] + AddressBytes(wire) + tx[4..];
      AddressRoundTrip(FAST_READ, wire, tx[4..]);
    }

    /** `transfer_in_place`: the received bytes overwrite the transmitted ones. */
    method Exchange(len: nat) returns (ok: bool)
      requires Valid() && READ_HEADER_LEN <= len <= io.Length && io[0] == FAST_READ
      modifies slave`endings, io
      ensures ok ==> io[..len] == slave.Answer(old(io[..len]))
      ensures old(slave.Healthy()) ==> ok && slave.Healthy()
    {
      var e := slave.NextEnding();
      ok := e.Complete?;
      if ok {
        CopyInto(slave.Answer(io[..len]), io, 0);
      }
    }
  }

  lemma AnswerData(slave: Slave, tx: seq<byte>, address: nat, start: nat, n: nat, incrementing: bool)
    requires |tx| == start + n && start == READ_HEADER_LEN + 4 * Latency(slave.preset, address) && tx[0] == FAST_READ
    requires Address24(tx) == (if incrementing then address + INCREMENTING else address)
    requires address < INCREMENTING && address + n <= INCREMENTING && (incrementing || n <= 4)
    requires Steady(slave.preset, address, n)
    ensures slave.Answer(tx)[start..] == slave.memory[address..address + n]
  {
    hide Address24, Latency, Steady;
  }

  lemma SpliceTwice(m: seq<byte>, a: nat, left: seq<byte>, right: seq<byte>)
    requires a + |left| + |right| <= |m|
    ensures Splice(Splice(m, a, left), a + |left|, right) == Splice(m, a, left + right)
  {
  }

  /** A change inside a range leaves what is outside it. */
  lemma EndsKept(before: seq<byte>, after: seq<byte>, lo: nat, hi: nat, from: nat, to: nat)
    requires |before| == |after| && lo <= from <= to <= hi <= |after|
    requires before[..from] == after[..from] && before[to..] == after[to..]
    ensures before[..lo] == after[..lo] && before[hi..] == after[hi..]
  {
    assert before[..lo] == before[..from][..lo] && after[..lo] == after[..from][..lo];
    assert before[hi..] == before[to..][hi - to..] && after[hi..] == after[to..][hi - to..];
  }

  /** Two adjacent parts read are one. */
  lemma PartsRead(before: seq<byte>, after: seq<byte>, at: nat, m: seq<byte>, a: nat, done: nat, count: nat)
    requires |before| == |after| && at + done + count <= |after| && a + done + count <= |m|
    requires before[..at + done] == after[..at + done] && before[at..at + done] == m[a..a + done]
    requires after[at + done..at + done + count] == m[a + done..a + done + count]
    ensures after[at..at + done + count] == m[a..a + done + count]
  {
    assert before[at..at + done] == before[..at + done][at..];
    assert after[at..at + done + count] == after[..at + done][at..] + after[at + done..at + done + count];
    assert m[a..a + done + count] == m[a..a + done] + m[a + done..a + done + count];
  }

  lemma SteadyPart(preset: Preset, a: nat, n: nat, done: nat, count: nat)
    requires Steady(preset, a, n) && done + count <= n && count > 0
    ensures Steady(preset, a + done, count)
  {
    assert Latency(preset, a + done) == Latency(preset, a);
  }
}
