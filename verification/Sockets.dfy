/** The AF_XDP socket's own methods over its two rings: shared slots and counters,
    written in place. */
module Sockets {
  import opened Rings
  import Frames

  /** A counter masked to its slot. */
  method Masked(counter: U32, size: nat) returns (idx: nat)
    requires size > 0
    ensures idx == SlotOf(counter, size)
  {
    RemIsRemainder(counter, size);
    idx := counter % size;
  }

  class XskRing {
    var producer: U32
    var consumer: U32
    const descs: array<nat>
    const size: nat

    /** The ring's value. */
    ghost function State(): Ring
      reads this, descs
    {
      Ring(size, producer, consumer, descs[..])
    }

    ghost predicate Valid()
      reads this, descs
    {
      State().Ok()
    }

    constructor (size: nat, start: U32)
      requires IsPow2(size) && size <= MAX_SIZE
      ensures Valid() && this.size == size && State().Contents() == [] && fresh(descs)
      ensures producer == consumer == start
    {
      this.size := size;
      producer, consumer := start, start;
      descs := new nat[size](i => 0);
    }

    /** Write the slot under the producer and publish it, room or no room. */
    method Push(addr: nat)
      requires State().Sized()
      modifies this`producer, descs
      ensures State() == Published(Written(old(State()), addr))
      ensures old(State()).Ok() && old(State()).Count() < size ==>
                Valid() && State().Contents() == old(State()).Contents() + [addr]
    {
      ghost var r := State();
      if r.Ok() && r.Count() < size {
        PushAppends(r, addr);
      }
      var idx := Masked(producer, size);
      ghost var w := Written(r, addr);
      descs[idx] := addr;
      assert descs[..] == w.slots;
      producer := (producer + 1) % WRAP;
      assert State() == Published(w);
    }
  }

  /** The largest power of two at most n, as the source finds it: double past n, then
      back off. */
  method NearestPow2(n: int) returns (v: nat)
    ensures IsPow2(v) && (n <= 0 ==> v == 1)
    ensures n > 0 ==> v <= n < 2 * v
  {
    if n <= 0 {
      assert IsPow2(1);
      return 1;
    }
    v := 1;
    while v < n
      invariant IsPow2(v) && 1 <= v <= 2 * n - 1
      decreases n - v
    {
      v := 2 * v;
    }
    if v > n {
      v := v / 2;
    }
  }

  /** One turn of the receive loop. */
  lemma CopyOne(r: Ring, j: nat)
    requires r.Ok() && j <= r.Count() && (r.cons + j) % WRAP != r.prod
    ensures j < r.Count() && (r.cons + (j + 1)) % WRAP == Next((r.cons + j) % WRAP)
    ensures r.Contents()[..j] + [r.slots[SlotOf((r.cons + j) % WRAP, r.size)]] == r.Contents()[..j + 1]
  {
    OneCloser(r.cons, r.prod, j);
    EntryAt(r, j);
  }

  /** One frame after another written and published, whatever that overwrites. */
  function PushedAll(r: Ring, frames: seq<nat>): (t: Ring)
    requires r.Sized()
    ensures t.Sized() && t.size == r.size && t.cons == r.cons
  {
    if frames == [] then r
    else Published(Written(PushedAll(r, frames[..|frames| - 1]), frames[|frames| - 1]))
  }

  /** With room for all of them they are the contents' new end, and the count fits. */
  lemma {:induction false} PushedAllAppends(r: Ring, frames: seq<nat>)
    requires r.Ok() && r.Count() + |frames| <= r.size
    ensures PushedAll(r, frames).Ok() && PushedAll(r, frames).Contents() == r.Contents() + frames
  {
    if frames == [] {
      assert r.Contents() + [] == r.Contents();
    } else {
      var n := |frames| - 1;
      PushedAllAppends(r, frames[..n]);
      PushAppends(PushedAll(r, frames[..n]), frames[n]);
      assert r.Contents() + frames[..n] + [frames[n]] == r.Contents() + frames;
    }
  }

  /** The first `n` frames of the memory area. */
  function Addresses(n: nat, frameSize: nat): (s: seq<nat>)
    ensures |s| == n
  {
    seq(n, i requires 0 <= i => i * frameSize)
  }

  lemma {:induction false} Farther(j: nat, k: nat, frameSize: nat)
    requires j < k && frameSize > 0
    ensures j * frameSize < k * frameSize
  {
    assert (k - 1) * frameSize == k * frameSize - frameSize;
    if j < k - 1 {
      Farther(j, k - 1, frameSize);
    }
  }

  /** Right after the fill, the rings are where every run of Frames starts. */
  lemma FilledIsInitial(fill: Ring, rx: Ring, n: nat, frameSize: nat)
    requires fill.Ok() && rx.Ok() && rx.size == fill.size && rx.Count() == 0 && frameSize > 0
    requires fill.Contents() == Addresses(n, frameSize)
    ensures Frames.Initial(Frames.Xsk(fill, rx, [], Frames.Idle))
  {
    forall j, k | 0 <= j < k < n ensures fill.Contents()[j] != fill.Contents()[k] {
      Farther(j, k, frameSize);
      assert fill.Contents()[j] == Addresses(n, frameSize)[j] == j * frameSize;
    }
  }

  class AfXdpSocket {
    const frameSize: nat
    const frameCount: int
    const fillRing: XskRing
    const rxRing: XskRing

    ghost predicate Valid()
      reads this, fillRing, rxRing, fillRing.descs, rxRing.descs
    {
      fillRing.Valid() && rxRing.Valid() && Apart()
    }

    ghost predicate Apart() {
      fillRing != rxRing && fillRing.descs != rxRing.descs
    }

    /** Rings of the largest power of two the frames allow, with counters wherever the
        kernel starts them. */
    constructor (frameCount: int, frameSize: nat, fillStart: U32, rxStart: U32)
      requires frameCount < 2 * MAX_SIZE
      ensures Valid() && this.frameCount == frameCount && this.frameSize == frameSize
      ensures fillRing.State().Count() == rxRing.State().Count() == 0
      ensures fillRing.size == rxRing.size && IsPow2(fillRing.size)
      ensures frameCount > 0 ==> fillRing.size <= frameCount < 2 * fillRing.size
    {
      var ringSize := NearestPow2(frameCount);
      assert IsPow2(0x100) && IsPow2(0x1000);
      Pow2Below(ringSize, MAX_SIZE);
      this.frameCount, this.frameSize := frameCount, frameSize;
      fillRing := new XskRing(ringSize, fillStart);
      rxRing := new XskRing(ringSize, rxStart);
    }

    /** Submit all frames the ring has room for. */
    method FillRing()
      requires Valid() && fillRing.State().Count() == 0
      modifies fillRing`producer, fillRing.descs
      ensures Valid() && rxRing.State() == old(rxRing.State())
      ensures fillRing.State().Contents()
           == Addresses(if frameCount < 0 then 0 else if frameCount < fillRing.size then frameCount else fillRing.size, frameSize)
    {
      var i := 0;
      while i < frameCount && i < fillRing.size
        invariant Valid() && 0 <= i <= fillRing.size && (i > 0 ==> i <= frameCount)
        invariant fillRing.State().Contents() == Addresses(i, frameSize)
        invariant rxRing.State() == old(rxRing.State())
      {
        fillRing.Push(i * frameSize);
        i := i + 1;
      }
    }

    /** Everything the kernel has produced so far, in order. The loop ends wherever the
        counters stand. */
    method ReceivePackets() returns (descs: seq<nat>)
      requires Valid()
      modifies rxRing`consumer
      ensures Valid() && descs == old(rxRing.State()).Contents() && rxRing.State().Contents() == []
      ensures rxRing.producer == old(rxRing.producer) && rxRing.descs[..] == old(rxRing.descs[..])
      ensures fillRing.State() == old(fillRing.State())
    {
      var cons, prod := rxRing.consumer, rxRing.producer;
      ghost var r := rxRing.State();
      if cons == prod {
        return [];
      }
      descs := [];
      while cons != prod
        invariant |descs| <= r.Count() && cons == (r.cons + |descs|) % WRAP
        invariant descs == r.Contents()[..|descs|] && rxRing.State() == r
        decreases r.Count() - |descs|
      {
        CopyOne(r, |descs|);
        var idx := Masked(cons, rxRing.size);
        descs := descs + [rxRing.descs[idx]];
        cons := (cons + 1) % WRAP;
      }
      Arrived(r.cons, prod, |descs|);
      DropTakes(r, |descs|);
      rxRing.consumer := cons;
      assert rxRing.State() == Dropped(r, |descs|);
    }

    /** Give frames back for the kernel to fill, room or no room. With room they are
        appended. */
    method ReturnToFill(descs: seq<nat>) returns (returned: nat)
      requires fillRing.State().Sized() && rxRing.Valid() && Apart()
      modifies fillRing`producer, fillRing.descs
      ensures returned == |descs| && rxRing.State() == old(rxRing.State()) && Apart()
      ensures fillRing.State() == PushedAll(old(fillRing.State()), descs)
      ensures old(Valid()) && old(fillRing.State()).Count() + |descs| <= fillRing.size ==>
                Valid() && fillRing.State().Contents() == old(fillRing.State()).Contents() + descs
    {
      returned := 0;
      ghost var r := fillRing.State();
      for j := 0 to |descs|
        invariant fillRing.State().Sized() && Apart() && returned == j && rxRing.State() == old(rxRing.State())
        invariant fillRing.State() == PushedAll(r, descs[..j])
      {
        assert descs[..j + 1][..j] == descs[..j];
        fillRing.Push(descs[j]);
        returned := returned + 1;
      }
      assert descs[..|descs|] == descs;
      if r.Ok() && r.Count() + |descs| <= r.size {
        PushedAllAppends(r, descs);
      }
    }
  }
}
