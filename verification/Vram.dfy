/** The video RAM driver: byte loops over device memory, clipped at its end, that advance the
    file offset only when every byte went through. */
module Vram {
  import opened Bytes

  const VRAM_SIZE := 0xfffffff
  const EFAULT := 14

  type Memory = m: seq<byte> | |m| == VRAM_SIZE witness seq(VRAM_SIZE, _ => 0)

  /** How much of a request of len octets at off the driver serves. */
  function Clip(off: nat, len: nat): (n: nat)
    ensures n <= len && (off <= VRAM_SIZE ==> off + n == Min(off + len, VRAM_SIZE))
    ensures n == 0 <==> len == 0 || off >= VRAM_SIZE
  {
    if off >= VRAM_SIZE then 0 else if off + len > VRAM_SIZE then VRAM_SIZE - off else len
  }

  /** The memory after the served part of data has been stored from off on. */
  function Stored(mem: Memory, off: nat, data: seq<byte>): (r: Memory)
    ensures forall i | 0 <= i < VRAM_SIZE ::
              r[i] == if off <= i < off + |data| then data[i - off] else mem[i]
  {
    var n := Clip(off, |data|);
    if n == 0 then mem else mem[..off] + data[..n] + mem[off + n..]
  }

  /** What a read of len octets at off delivers. */
  function Loaded(mem: Memory, off: nat, len: nat): (r: seq<byte>)
    ensures |r| == Clip(off, len) && forall i | 0 <= i < |r| :: r[i] == mem[off + i]
  {
    if off >= VRAM_SIZE then [] else mem[off..off + Clip(off, len)]
  }

  lemma LoadedMore(mem: Memory, off: nat, len: nat, more: nat)
    requires off + len <= VRAM_SIZE
    ensures Loaded(mem, off, len) + Loaded(mem, off + len, more) == Loaded(mem, off, len + Clip(off + len, more))
  {
  }

  lemma LoadedAll(mem: Memory, off: nat, len: nat)
    requires len == 0 || off + len <= VRAM_SIZE
    ensures off + len >= VRAM_SIZE ==> Loaded(mem, off, len) == Loaded(mem, off, VRAM_SIZE)
    ensures len == 0 ==> Loaded(mem, off, len) == []
  {
  }

  /** The device and the two calls. The user's memory may fault at some octet. */
  class Device {
    const vram: array<byte>

    ghost predicate Valid() {
      vram.Length == VRAM_SIZE
    }

    constructor (vram: array<byte>)
      requires vram.Length == VRAM_SIZE
      ensures Valid() && this.vram == vram
    {
      this.vram := vram;
    }

    /** my_write */
    method Write(buf: seq<byte>, off: nat, fault: Option<nat>) returns (ret: int, newOff: nat)
      requires Valid()
      modifies vram
      ensures var n := Clip(off, |buf|);
              if fault.Some? && fault.value < n
              then ret == -EFAULT && newOff == off && vram[..] == Stored(old(vram[..]), off, buf[..fault.value])
              else ret == n && newOff == off + n && vram[..] == Stored(old(vram[..]), off, buf)
    {
      var len := |buf|;
      ghost var was: Memory := vram[..];
      if off >= VRAM_SIZE {
        assert vram[..] == Stored(was, off, buf);
        return 0, off;
      }
      if off + len > VRAM_SIZE {
        len := VRAM_SIZE - off;
      }
      var i := 0;
      while i < len
        invariant i <= len == Clip(off, |buf|)
        invariant fault.Some? ==> i <= fault.value || fault.value >= len
        invariant forall k | 0 <= k < VRAM_SIZE :: vram[k] == if off <= k < off + i then buf[k - off] else was[k]
      {
        if fault == Some(i) {
          assert vram[..] == Stored(was, off, buf[..i]);
          return -EFAULT, off;
        }
        vram[off + i] := buf[i];
        i := i + 1;
      }
      assert vram[..] == Stored(was, off, buf);
      return len, off + len;
    }

    /** my_read */
    method Read(user: array<byte>, off: nat, fault: Option<nat>) returns (ret: int, newOff: nat)
      requires Valid() && user != vram
      modifies user
      ensures var n := Clip(off, user.Length);
              var k := if fault.Some? && fault.value < n then fault.value else n;
              && user[..k] == Loaded(vram[..], off, k) && user[k..] == old(user[k..])
              && (if k < n then ret == -EFAULT && newOff == off else ret == n && newOff == off + n)
    {
      var len := user.Length;
      if off >= VRAM_SIZE {
        return 0, off;
      }
      if off + len > VRAM_SIZE {
        len := VRAM_SIZE - off;
      }
      var i := 0;
      while i < len
        invariant i <= len == Clip(off, user.Length)
        invariant fault.Some? ==> i <= fault.value || fault.value >= len
        invariant forall k | 0 <= k < user.Length :: user[k] == if k < i then vram[off + k] else old(user[k])
      {
        if fault == Some(i) {
          return -EFAULT, off;
        }
        user[i] := vram[off + i];
        i := i + 1;
      }
      return len, off + len;
    }

    /** A reader that calls read with the same buffer size until it gets 0. */
    method ReadToEnd(off: nat, size: nat) returns (data: seq<byte>)
      requires Valid()
      ensures data == Loaded(vram[..], off, if size == 0 then 0 else VRAM_SIZE)
    {
      data := [];
      var at := off;
      var user := new byte[size];
      while true
        invariant off <= at && (size == 0 ==> at == off) && (at > off ==> at <= VRAM_SIZE)
        invariant data == Loaded(vram[..], off, at - off)
        decreases VRAM_SIZE - at
      {
        var ret, next := Read(user, at, None);
        if ret == 0 {
          LoadedAll(vram[..], off, at - off);
          return;
        }
        LoadedMore(vram[..], off, at - off, size);
        data := data + user[..ret];
        at := next;
      }
    }
  }

  // ------------------------------------------------------------ sequences of calls

  function Flatten(chunks: seq<seq<byte>>): seq<byte> {
    if chunks == [] then [] else chunks[0] + Flatten(chunks[1..])
  }

  function Total(lens: seq<nat>): nat {
    if lens == [] then 0 else lens[0] + Total(lens[1..])
  }

  /** Writing the chunks one call after another, each at the offset the last one left. */
  function WriteAll(mem: Memory, off: nat, chunks: seq<seq<byte>>): (Memory, nat)
    decreases |chunks|
  {
    if chunks == [] then (mem, off)
    else WriteAll(Stored(mem, off, chunks[0]), off + Clip(off, |chunks[0]|), chunks[1..])
  }

  function ReadAll(mem: Memory, off: nat, lens: seq<nat>): (seq<byte>, nat)
    decreases |lens|
  {
    if lens == [] then ([], off)
    else
      var rest := ReadAll(mem, off + Clip(off, lens[0]), lens[1..]);
      (Loaded(mem, off, lens[0]) + rest.0, rest.1)
  }

  lemma StoredTwice(mem: Memory, off: nat, a: seq<byte>, b: seq<byte>)
    ensures Stored(Stored(mem, off, a), off + Clip(off, |a|), b) == Stored(mem, off, a + b)
    ensures Clip(off, |a|) + Clip(off + Clip(off, |a|), |b|) == Clip(off, |a + b|)
  {
  }

  /** Any way of cutting the data into calls is one write of all of it, clipped. */
  lemma {:induction false} ChunkedWrite(mem: Memory, off: nat, chunks: seq<seq<byte>>)
    ensures WriteAll(mem, off, chunks).0 == Stored(mem, off, Flatten(chunks))
    ensures WriteAll(mem, off, chunks).1 == off + Clip(off, |Flatten(chunks)|)
    ensures off <= 0xfffffff ==> WriteAll(mem, off, chunks).1 == Min(off + |Flatten(chunks)|, 0xfffffff)
    decreases |chunks|
  {
    if chunks == [] {
      assert Stored(mem, off, []) == mem;
    } else {
      ChunkedWrite(Stored(mem, off, chunks[0]), off + Clip(off, |chunks[0]|), chunks[1..]);
      StoredTwice(mem, off, chunks[0], Flatten(chunks[1..]));
    }
  }

  lemma {:induction false} ChunkedRead(mem: Memory, off: nat, lens: seq<nat>)
    ensures ReadAll(mem, off, lens).0 == Loaded(mem, off, Total(lens))
    ensures ReadAll(mem, off, lens).1 == off + Clip(off, Total(lens))
    decreases |lens|
  {
    if lens != [] {
      ChunkedRead(mem, off + Clip(off, lens[0]), lens[1..]);
    }
  }

  /** Reading back, with whatever chunking, what was written with whatever other chunking. */
  lemma ReadBack(mem: Memory, off: nat, chunks: seq<seq<byte>>, lens: seq<nat>)
    requires Total(lens) <= |Flatten(chunks)|
    ensures ReadAll(WriteAll(mem, off, chunks).0, off, lens).0 == Flatten(chunks)[..Clip(off, Total(lens))]
  {
    ChunkedWrite(mem, off, chunks);
    ChunkedRead(WriteAll(mem, off, chunks).0, off, lens);
  }

  /** A write that faults leaves the offset, so retrying it whole ends where a write without
      the fault would have. */
  lemma RetryAfterFault(mem: Memory, off: nat, data: seq<byte>, k: nat)
    requires k < Clip(off, |data|)
    ensures Stored(Stored(mem, off, data[..k]), off, data) == Stored(mem, off, data)
  {
  }
}
