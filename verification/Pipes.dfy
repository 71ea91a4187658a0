/** The pipe: a ring of PIPESIZE bytes between 32-bit counters that wrap.  Each
    method below is what one process does while it holds the pipe's lock, from
    taking it to sleeping on it or releasing it; processes interleave by calling
    them in any order. */
module Pipes {
  import opened Words

  const PIPESIZE: nat := 512

  datatype Outcome = Done | Sleep | Fail

  class Pipe {
    const data: array<int>
    var nread: nat
    var nwrite: nat
    var readopen: bool
    var writeopen: bool
    /** Every byte ever accepted, and every byte ever delivered. */
    ghost var sent: seq<int>
    ghost var received: seq<int>

    /** Delivered bytes are the first accepted ones; at most PIPESIZE are in
        flight, and each sits at its position modulo PIPESIZE, whatever the
        counters have wrapped to. */
    ghost predicate Valid()
      reads this, data
    {
      && data.Length == PIPESIZE
      && received <= sent && |sent| - |received| <= PIPESIZE
      && nread == |received| % WORD_MOD && nwrite == |sent| % WORD_MOD
      && forall i | |received| <= i < |sent| :: data[i % PIPESIZE] == sent[i]
    }

    /** pipealloc's part: an empty pipe with both ends open. */
    constructor ()
      ensures Valid() && sent == [] && received == [] && readopen && writeopen && fresh(data)
    {
      data := new int[PIPESIZE];
      nread, nwrite, readopen, writeopen := 0, 0, true, true;
      sent, received := [], [];
    }

    /** pipewrite from its i-th byte on: it accepts bytes in order until it is done,
        or the ring is full. */
    method Write(addr: seq<int>, i0: nat, killed: bool) returns (i: nat, out: Outcome)
      requires Valid() && i0 <= |addr|
      modifies this`nwrite, this`sent, data
      ensures Valid() && received == old(received)
      ensures i0 <= i <= |addr| && sent == old(sent) + addr[i0..i]
      ensures out.Done? <==> i == |addr|
      ensures !out.Done? ==> |sent| == |received| + PIPESIZE && (out.Fail? <==> !readopen || killed)
    {
      i := i0;
      while i < |addr|
        invariant Valid() && received == old(received) && i0 <= i <= |addr| && sent == old(sent) + addr[i0..i]
      {
        CountersTell(|received|, |sent|);
        if nwrite == (nread + PIPESIZE) % WORD_MOD {
          out := if !readopen || killed then Fail else Sleep;
          return;
        }
        Put(addr[i]);
        i := i + 1;
      }
      out := Done;
    }

    method Put(x: int)
      requires Valid() && |sent| < |received| + PIPESIZE
      modifies this`nwrite, this`sent, data
      ensures Valid() && received == old(received) && sent == old(sent) + [x]
    {
      RingSlot(|sent|);
      data[nwrite % PIPESIZE] := x;
      nwrite := (nwrite + 1) % WORD_MOD;
      sent := sent + [x];
      OtherSlots(|received|, |sent| - 1);
    }

    /** piperead: sleeps while the pipe is empty and the write end open, else takes
        what is there, up to n bytes. */
    method Read(n: nat, killed: bool) returns (got: seq<int>, out: Outcome)
      requires Valid()
      modifies this`nread, this`received
      ensures Valid() && sent == old(sent) && received == old(received) + got
      ensures !out.Done? <==> sent == old(received) && writeopen
      ensures out.Fail? <==> !out.Done? && killed
      ensures !out.Done? ==> got == []
      ensures out.Done? ==> |got| == if n < |sent| - |old(received)| then n else |sent| - |old(received)|
      ensures n > 0 && out.Done? && got == [] ==> received == sent && !writeopen
    {
      got := [];
      CountersTell(|received|, |sent|);
      if nread == nwrite && writeopen {
        out := if killed then Fail else Sleep;
        return;
      }
      out := Done;
      var i := 0;
      while i < n
        invariant Valid() && sent == old(sent) && received == old(received) + got && |got| == i <= n
      {
        CountersTell(|received|, |sent|);
        if nread == nwrite {
          break;
        }
        RingSlot(|received|);
        got := got + [data[nread % PIPESIZE]];
        nread := (nread + 1) % WORD_MOD;
        received := sent[..|received| + 1];
        i := i + 1;
      }
    }

    /** pipeclose of one end; the pipe is freed when both are closed. */
    method Close(writable: bool) returns (freed: bool)
      requires Valid()
      modifies this`readopen, this`writeopen
      ensures Valid() && sent == old(sent) && received == old(received)
      ensures writeopen == (old(writeopen) && !writable) && readopen == (old(readopen) && writable)
      ensures freed <==> !readopen && !writeopen
    {
      if writable {
        writeopen := false;
      } else {
        readopen := false;
      }
      freed := !readopen && !writeopen;
    }
  }

  /** The kernel's two tests on the wrapped counters mean what they should: empty and full. */
  lemma CountersTell(r: nat, w: nat)
    requires r <= w <= r + PIPESIZE
    ensures r % WORD_MOD == w % WORD_MOD <==> w == r
    ensures w % WORD_MOD == (r % WORD_MOD + PIPESIZE) % WORD_MOD <==> w == r + PIPESIZE
  {
    WrapDistance(r, w - r);
    WrapDistance(r + PIPESIZE, w - r - PIPESIZE);
    WrapAdd(r);
  }

  /** Counters less than WORD_MOD apart are equal exactly when they are 0 apart. */
  lemma WrapDistance(r: nat, d: int)
    requires 0 - WORD_MOD < d < WORD_MOD && r + d >= 0
    ensures (r + d) % WORD_MOD == r % WORD_MOD <==> d == 0
  {
    var a, b := r / WORD_MOD, (r + d) / WORD_MOD;
    if (r + d) % WORD_MOD == r % WORD_MOD {
      assert d == WORD_MOD * (b - a);
    }
  }

  lemma WrapAdd(r: nat)
    ensures (r % WORD_MOD + PIPESIZE) % WORD_MOD == (r + PIPESIZE) % WORD_MOD
  {
    var q, m := r / WORD_MOD, r % WORD_MOD;
    assert r + PIPESIZE == WORD_MOD * q + (m + PIPESIZE);
    if m + PIPESIZE >= WORD_MOD {
      assert r + PIPESIZE == WORD_MOD * (q + 1) + (m + PIPESIZE - WORD_MOD);
    }
  }

  /** PIPESIZE divides 2^32, so a wrapped counter names the same ring slot. */
  lemma RingSlot(n: nat)
    ensures n % WORD_MOD % PIPESIZE == n % PIPESIZE
    ensures (n % WORD_MOD + 1) % WORD_MOD == (n + 1) % WORD_MOD
  {
    var q := n / WORD_MOD;
    assert n == PIPESIZE * (q * 8388608) + n % WORD_MOD;
    assert n + 1 == WORD_MOD * q + (n % WORD_MOD + 1);
  }

  /** Positions less than PIPESIZE apart use different slots. */
  lemma OtherSlots(lo: nat, hi: nat)
    requires hi - lo < PIPESIZE
    ensures forall i | lo <= i < hi :: i % PIPESIZE != hi % PIPESIZE
  {
    forall i | lo <= i < hi ensures i % PIPESIZE != hi % PIPESIZE {
      var a, b := i / PIPESIZE, hi / PIPESIZE;
      assert i == PIPESIZE * a + i % PIPESIZE && hi == PIPESIZE * b + hi % PIPESIZE;
    }
  }
}
