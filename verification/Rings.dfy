/** The AF_XDP ring pair as values, and user and kernel passing frames through it in
    interleaved steps. */
module Rings {

  const WRAP := 0x1_0000_0000

  /** The rings' descriptor areas are addressed as arrays of this many entries. */
  const MAX_SIZE := 0x10_0000

  type U32 = n: nat | n < WRAP

  predicate IsPow2(v: nat) {
    v == 1 || (v > 1 && v % 2 == 0 && IsPow2(v / 2))
  }

  /** A single-producer, single-consumer ring of frame addresses. The counters run
      freely and wrap; a counter masked with size - 1 is a slot. */
  datatype Ring = Ring(size: nat, prod: U32, cons: U32, slots: seq<nat>)
  {
    predicate Sized() {
      IsPow2(size) && size <= MAX_SIZE && |slots| == size
    }

    /** How far the producer is ahead, across the wrap. */
    function Count(): nat {
      (prod - cons) % WRAP
    }

    predicate Ok() {
      Sized() && Count() <= size
    }

    function Contents(): (s: seq<nat>)
      requires Sized()
      ensures |s| == Count()
    {
      seq(Count(), j requires 0 <= j => slots[SlotOf(cons + j, size)])
    }
  }

  /** The remainder, by its definition. */
  function Rem(x: nat, d: nat): (r: nat)
    requires d > 0
    ensures r < d
  {
    if x < d then x else Rem(x - d, d)
  }

  /** The slot of a counter that may have run past the wrap. */
  function SlotOf(counter: nat, size: nat): (k: nat)
    requires size > 0
    ensures k < size
  {
    Rem(counter % WRAP, size)
  }

  function Next(counter: U32): U32 {
    (counter + 1) % WRAP
  }

  /** Masking a counter with size - 1 is its remainder by the size, for every power of
      two up to 2^20. */
  lemma MaskIsRemainder(p: bv32)
    ensures p & 0x0 == p % 0x1 &&
            p & 0x1 == p % 0x2 &&
            p & 0x3 == p % 0x4 &&
            p & 0x7 == p % 0x8 &&
            p & 0xf == p % 0x10 &&
            p & 0x1f == p % 0x20 &&
            p & 0x3f == p % 0x40 &&
            p & 0x7f == p % 0x80 &&
            p & 0xff == p % 0x100 &&
            p & 0x1ff == p % 0x200 &&
            p & 0x3ff == p % 0x400 &&
            p & 0x7ff == p % 0x800 &&
            p & 0xfff == p % 0x1000 &&
            p & 0x1fff == p % 0x2000 &&
            p & 0x3fff == p % 0x4000 &&
            p & 0x7fff == p % 0x8000 &&
            p & 0xffff == p % 0x10000 &&
            p & 0x1ffff == p % 0x20000 &&
            p & 0x3ffff == p % 0x40000 &&
            p & 0x7ffff == p % 0x80000 &&
            p & 0xfffff == p % 0x100000
  {
  }

  // ---- arithmetic of the wrap ----

  lemma {:induction false} RemTimes(x: nat, d: nat, m: nat)
    requires d > 0
    ensures Rem(x + d * m, d) == Rem(x, d)
  {
    if m > 0 {
      RemTimes(x, d, m - 1);
      assert d * m == d * (m - 1) + d;
    }
  }

  lemma RemIsRemainder(x: nat, d: nat)
    requires d > 0
    ensures Rem(x, d) == x % d
  {
    assert x == x % d + d * (x / d);
    RemTimes(x % d, d, x / d);
  }

  lemma {:induction false} RemApart(x: nat, y: nat, d: nat)
    requires d > 0 && x < y < x + d
    ensures Rem(x, d) != Rem(y, d)
  {
    if x >= d {
      RemApart(x - d, y - d, d);
    }
  }

  /** A power of two divides every larger one. */
  lemma {:induction false} Pow2Times(v: nat, w: nat) returns (m: nat)
    requires IsPow2(v) && IsPow2(w) && v <= w
    ensures w == v * m
  {
    if v == 1 {
      m := w;
    } else {
      m := Pow2Times(v / 2, w / 2);
      assert w == 2 * (v / 2 * m) == v * m;
    }
  }

  lemma {:induction false} Pow2Below(v: nat, w: nat)
    requires IsPow2(v) && IsPow2(w) && v < 2 * w
    ensures v <= w
  {
    if v > 1 && w > 1 {
      Pow2Below(v / 2, w / 2);
    }
  }

  lemma Twice(v: nat, w: nat)
    requires IsPow2(v) && w == 2 * v
    ensures IsPow2(w)
  {
    assert w / 2 == v;
  }

  lemma TimesSixteen(v: nat)
    requires IsPow2(v)
    ensures IsPow2(16 * v)
  {
    Twice(v, 2 * v);
    Twice(2 * v, 4 * v);
    Twice(4 * v, 8 * v);
    Twice(8 * v, 16 * v);
  }

  lemma WrapIsPow2()
    ensures IsPow2(WRAP)
  {
    TimesSixteen(1);
    TimesSixteen(0x10);
    TimesSixteen(0x100);
    TimesSixteen(0x1000);
    TimesSixteen(0x1_0000);
    TimesSixteen(0x10_0000);
    TimesSixteen(0x100_0000);
    TimesSixteen(0x1000_0000);
  }

  lemma {:induction false} RemWraps(x: nat, a: nat, size: nat, m: nat)
    requires size > 0 && WRAP == size * m
    ensures Rem(x + WRAP * a, size) == Rem(x, size)
  {
    if a > 0 {
      RemWraps(x, a - 1, size, m);
      RemTimes(x + WRAP * (a - 1), size, m);
    }
  }

  lemma NextWraps(cons: U32, j: nat)
    ensures (Next(cons) + j) % WRAP == (cons + (j + 1)) % WRAP
  {
  }

  lemma NextSlot(cons: U32, j: nat, size: nat)
    requires size > 0
    ensures SlotOf(Next(cons) + j, size) == SlotOf(cons + (j + 1), size)
  {
    NextWraps(cons, j);
  }

  /** The wrap is invisible to the slot. */
  lemma WrapSlot(x: nat, size: nat)
    requires IsPow2(size) && size <= MAX_SIZE
    ensures SlotOf(x, size) == Rem(x, size)
  {
    WrapIsPow2();
    var m := Pow2Times(size, WRAP);
    RemWraps(x % WRAP, x / WRAP, size, m);
  }

  /** Counters less than a size apart have different slots. */
  lemma SlotsApart(x: nat, y: nat, size: nat)
    requires IsPow2(size) && size <= MAX_SIZE && x < y < x + size
    ensures SlotOf(x, size) != SlotOf(y, size)
  {
    WrapSlot(x, size);
    WrapSlot(y, size);
    RemApart(x, y, size);
  }

  lemma SlotWrapped(x: nat, size: nat)
    requires size > 0
    ensures SlotOf(x % WRAP, size) == SlotOf(x, size)
  {
  }

  // ---- ring operations ----

  /** Write the slot under the producer. */
  function Written(r: Ring, x: nat): Ring
    requires r.Sized()
  {
    r.(slots := r.slots[SlotOf(r.prod, r.size) := x])
  }

  function Published(r: Ring): Ring {
    r.(prod := Next(r.prod))
  }

  function Consumed(r: Ring): Ring {
    r.(cons := Next(r.cons))
  }

  /** The slot under the producer is none of the unconsumed ones while there is room:
      writing it changes nothing the consumer can see, and publishing it appends it. */
  lemma PushAppends(r: Ring, x: nat)
    requires r.Ok() && r.Count() < r.size
    ensures var w := Written(r, x);
            && w.Ok() && w.Contents() == r.Contents()
            && Published(w).Ok() && Published(w).Contents() == r.Contents() + [x]
  {
    var w := Written(r, x);
    WrittenKeeps(r, x);
    ProducerSlot(r);
    CountUp(r.prod, r.cons);
    assert w.slots[SlotOf(r.cons + r.Count(), r.size)] == x;
    assert Published(w).Contents() == w.Contents() + [x];
  }

  lemma WrittenKeeps(r: Ring, x: nat)
    requires r.Ok() && r.Count() < r.size
    ensures Written(r, x).Contents() == r.Contents()
  {
    ProducerSlot(r);
    forall j | 0 <= j < r.Count() ensures Written(r, x).Contents()[j] == r.Contents()[j] {
      SlotsApart(r.cons + j, r.cons + r.Count(), r.size);
    }
  }

  lemma CountUp(prod: U32, cons: U32)
    requires (prod - cons) % WRAP < WRAP - 1
    ensures (Next(prod) - cons) % WRAP == (prod - cons) % WRAP + 1
  {
  }

  lemma CountDown(prod: U32, cons: U32)
    requires prod != cons
    ensures (prod - Next(cons)) % WRAP == (prod - cons) % WRAP - 1
  {
  }

  lemma ProducerSlot(r: Ring)
    requires r.Sized()
    ensures SlotOf(r.prod, r.size) == SlotOf(r.cons + r.Count(), r.size)
  {
    CountReaches(r.prod, r.cons);
  }

  lemma CountReaches(prod: U32, cons: U32)
    ensures (cons + (prod - cons) % WRAP) % WRAP == prod == prod % WRAP
  {
  }

  /** A full ring has no such slot: writing would overwrite the oldest entry. */
  lemma PushOverwritesWhenFull(r: Ring)
    requires r.Ok() && r.Count() == r.size
    ensures SlotOf(r.prod, r.size) == SlotOf(r.cons, r.size)
  {
    ProducerSlot(r);
    WrapSlot(r.cons, r.size);
    WrapSlot(r.cons + r.size, r.size);
    RemTimes(r.cons, r.size, 1);
  }

  lemma PopTakesFirst(r: Ring)
    requires r.Ok() && r.cons != r.prod
    ensures r.Count() > 0 && r.Contents()[0] == r.slots[SlotOf(r.cons, r.size)]
    ensures Consumed(r).Ok() && Consumed(r).Contents() == r.Contents()[1..]
  {
    CountDown(r.prod, r.cons);
    PopSlots(r, Consumed(r));
  }

  lemma PopSlots(r: Ring, c: Ring)
    requires r.Sized() && c.Sized() && c.size == r.size && c.slots == r.slots && c.cons == Next(r.cons)
    requires c.Count() == r.Count() - 1
    ensures c.Contents() == r.Contents()[1..]
  {
    forall j | 0 <= j < c.Count() ensures c.Contents()[j] == r.Contents()[j + 1] {
      NextSlot(r.cons, j, r.size);
      var k := j + 1;
      assert c.Contents()[j] == r.slots[SlotOf(c.cons + j, r.size)];
      assert r.Contents()[k] == r.slots[SlotOf(r.cons + k, r.size)];
    }
  }

  /** The ring once its consumer has moved on by `n`. */
  function Dropped(r: Ring, n: nat): Ring {
    r.(cons := (r.cons + n) % WRAP)
  }

  lemma DropNext(r: Ring, n: nat)
    ensures Consumed(Dropped(r, n)) == Dropped(r, n + 1)
  {
    NextWraps((r.cons + n) % WRAP, 0);
  }

  lemma {:induction false} DropTakes(r: Ring, n: nat)
    requires r.Ok() && n <= r.Count()
    ensures Dropped(r, n).Ok() && Dropped(r, n).Contents() == r.Contents()[n..]
    ensures Dropped(r, n).Count() == r.Count() - n
  {
    if n == 0 {
      assert Dropped(r, 0) == r;
    } else {
      DropTakes(r, n - 1);
      DropNext(r, n - 1);
      DropFirst(r.Contents(), n - 1, Dropped(r, n - 1));
    }
  }

  lemma DropFirst(s: seq<nat>, n: nat, m: Ring)
    requires m.Ok() && n < |s| && m.Contents() == s[n..]
    ensures Consumed(m).Ok() && Consumed(m).Contents() == s[n + 1..]
  {
    PopTakesFirst(m);
    assert s[n..][1..] == s[n + 1..];
  }

  /** Short of the producer, one more copy stays short of it or meets it. */
  lemma OneCloser(cons: U32, prod: U32, j: nat)
    requires j <= (prod - cons) % WRAP && (cons + j) % WRAP != prod
    ensures j < (prod - cons) % WRAP && (cons + (j + 1)) % WRAP == Next((cons + j) % WRAP)
  {
  }

  /** At the producer, everything up to it has been copied. */
  lemma Arrived(cons: U32, prod: U32, j: nat)
    requires j <= (prod - cons) % WRAP && (cons + j) % WRAP == prod
    ensures j == (prod - cons) % WRAP
  {
  }

  /** The entry a consumer walking the ring finds at its counter. */
  lemma EntryAt(r: Ring, j: nat)
    requires r.Sized() && j < r.Count()
    ensures r.Contents()[j] == r.slots[SlotOf((r.cons + j) % WRAP, r.size)]
  {
    SlotWrapped(r.cons + j, r.size);
  }
}
