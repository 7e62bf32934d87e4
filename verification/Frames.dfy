/** Who owns a frame: user and kernel pass frames through the fill and rx rings in
    interleaved atomic steps, and each frame is in exactly one place. */
module Frames {
  import opened Rings

  /** The user between batches, copying descriptors out of the rx ring, or giving a
      batch back. `written` says that the fill slot is written but not published. */
  datatype User =
    | Idle
    | Receiving(cons: U32, prod: U32, got: seq<nat>)
    | Returning(batch: seq<nat>, written: bool)

  datatype Xsk = Xsk(fill: Ring, rx: Ring, kernel: seq<nat>, user: User)

  datatype Act =
    | Poll
    | Copy
    | Release
    | Write
    | Publish
    | KernelTake
    | KernelDeliver(i: nat)

  predicate Enabled(x: Xsk, a: Act) {
    && x.fill.Sized() && x.rx.Sized()
    && match a
       case Poll => x.user.Idle?
       case Copy => x.user.Receiving? && x.user.cons != x.user.prod
       case Release => x.user.Receiving? && x.user.cons == x.user.prod
       case Write => x.user.Returning? && !x.user.written && x.user.batch != []
       case Publish => x.user.Returning? && x.user.written && x.user.batch != []
       case KernelTake => x.fill.cons != x.fill.prod
       case KernelDeliver(i) => i < |x.kernel|
  }

  /** One atomic step. Neither side checks for room. */
  function Step(x: Xsk, a: Act): Xsk
    requires Enabled(x, a)
  {
    match a
    case Poll =>
      if x.rx.cons == x.rx.prod then x else x.(user := Receiving(x.rx.cons, x.rx.prod, []))
    case Copy =>
      var u := x.user;
      x.(user := Receiving(Next(u.cons), u.prod, u.got + [x.rx.slots[SlotOf(u.cons, x.rx.size)]]))
    case Release =>
      x.(rx := x.rx.(cons := x.user.cons), user := Returning(x.user.got, false))
    case Write =>
      x.(fill := Written(x.fill, x.user.batch[0]), user := x.user.(written := true))
    case Publish =>
      var rest := x.user.batch[1..];
      x.(fill := Published(x.fill), user := if rest == [] then Idle else Returning(rest, false))
    case KernelTake =>
      x.(fill := Consumed(x.fill), kernel := x.kernel + [x.fill.slots[SlotOf(x.fill.cons, x.fill.size)]])
    case KernelDeliver(i) =>
      x.(rx := Published(Written(x.rx, x.kernel[i])), kernel := x.kernel[..i] + x.kernel[i + 1..])
  }

  ghost predicate Runs(x: Xsk, acts: seq<Act>, y: Xsk)
    decreases |acts|
  {
    if acts == [] then y == x
    else Enabled(x, acts[0]) && Runs(Step(x, acts[0]), acts[1..], y)
  }

  // ---- where the frames are ----

  function Batch(u: User): seq<nat> {
    if u.Returning? then u.batch else []
  }

  ghost function Frames(x: Xsk): multiset<nat>
    requires x.fill.Sized() && x.rx.Sized()
  {
    multiset(x.fill.Contents()) + multiset(x.kernel) + multiset(x.rx.Contents()) + multiset(Batch(x.user))
  }

  /** The copying user has the first descriptors of the rx ring so far, in order. */
  predicate Copying(x: Xsk)
    requires x.rx.Sized()
  {
    x.user.Receiving? ==>
      var u, n := x.user, (x.user.prod - x.rx.cons) % WRAP;
      && u.prod != x.rx.cons && |u.got| <= n <= x.rx.Count()
      && u.cons == (x.rx.cons + |u.got|) % WRAP && u.got == x.rx.Contents()[..|u.got|]
  }

  /** Once written, the slot behind the published ones holds the head of the batch. */
  predicate Writing(x: Xsk)
    requires x.fill.Sized()
  {
    x.user.Returning? ==>
      x.user.batch != [] && (x.user.written ==> x.fill.slots[SlotOf(x.fill.prod, x.fill.size)] == x.user.batch[0])
  }

  /** Every frame is in exactly one of fill ring, kernel, rx ring and batch. */
  ghost predicate Placed(x: Xsk, frames: multiset<nat>) {
    && x.fill.Ok() && x.rx.Ok() && x.rx.size == x.fill.size && |frames| <= x.fill.size
    && Frames(x) == frames
  }

  ghost predicate Good(x: Xsk, frames: multiset<nat>) {
    Placed(x, frames) && Copying(x) && Writing(x)
  }

  lemma Room(x: Xsk, frames: multiset<nat>)
    requires Good(x, frames)
    ensures x.kernel != [] ==> x.rx.Count() < x.rx.size
    ensures x.user.Returning? ==> x.fill.Count() < x.fill.size
  {
    assert |frames| == x.fill.Count() + |x.kernel| + x.rx.Count() + |Batch(x.user)|;
  }

  lemma CopyCopies(x: Xsk)
    requires x.rx.Ok() && Copying(x) && Enabled(x, Copy)
    ensures Copying(Step(x, Copy))
  {
    var u, j, c := x.user, |x.user.got|, x.rx.Contents();
    OneCloser(x.rx.cons, u.prod, j);
    EntryAt(x.rx, j);
    assert c[..j + 1] == c[..j] + [c[j]];
  }

  lemma CopyGood(x: Xsk, frames: multiset<nat>)
    requires Good(x, frames) && Enabled(x, Copy)
    ensures Good(Step(x, Copy), frames)
  {
    CopyCopies(x);
    assert Batch(x.user) == Batch(Step(x, Copy).user);
  }

  /** A finished copy is exactly what the rx ring held at the poll, in order. */
  lemma CopiedAll(x: Xsk)
    requires x.rx.Ok() && Copying(x) && Enabled(x, Release)
    ensures |x.user.got| == (x.user.prod - x.rx.cons) % WRAP <= x.rx.Count()
    ensures x.user.got != [] && x.user.got == x.rx.Contents()[..|x.user.got|]
    ensures Step(x, Release).rx == Dropped(x.rx, |x.user.got|)
  {
    Arrived(x.rx.cons, x.user.prod, |x.user.got|);
  }

  lemma ReleaseGood(x: Xsk, frames: multiset<nat>)
    requires Good(x, frames) && Enabled(x, Release)
    ensures Good(Step(x, Release), frames)
  {
    var c, n := x.rx.Contents(), |x.user.got|;
    CopiedAll(x);
    DropTakes(x.rx, n);
    assert c == c[..n] + c[n..];
  }

  lemma WriteGood(x: Xsk, frames: multiset<nat>)
    requires Good(x, frames) && Enabled(x, Write)
    ensures Good(Step(x, Write), frames)
  {
    Room(x, frames);
    PushAppends(x.fill, x.user.batch[0]);
  }

  lemma PublishGood(x: Xsk, frames: multiset<nat>)
    requires Good(x, frames) && Enabled(x, Publish)
    ensures Good(Step(x, Publish), frames)
  {
    Room(x, frames);
    var b := x.user.batch;
    PushAppends(x.fill, b[0]);
    assert Written(x.fill, b[0]) == x.fill;
    assert b == [b[0]] + b[1..];
  }

  lemma TakePlaced(x: Xsk, frames: multiset<nat>)
    requires Placed(x, frames) && Enabled(x, KernelTake)
    ensures Placed(Step(x, KernelTake), frames)
  {
    PopTakesFirst(x.fill);
    assert x.fill.Contents() == [x.fill.Contents()[0]] + x.fill.Contents()[1..];
  }

  lemma TakeGood(x: Xsk, frames: multiset<nat>)
    requires Good(x, frames) && Enabled(x, KernelTake)
    ensures Good(Step(x, KernelTake), frames)
  {
    TakePlaced(x, frames);
  }

  lemma DeliverPlaced(x: Xsk, frames: multiset<nat>, i: nat)
    requires Placed(x, frames) && i < |x.kernel| && x.rx.Count() < x.rx.size
    ensures Placed(Step(x, KernelDeliver(i)), frames)
    ensures Step(x, KernelDeliver(i)).rx.Contents() == x.rx.Contents() + [x.kernel[i]]
  {
    PushAppends(x.rx, x.kernel[i]);
    assert x.kernel == x.kernel[..i] + [x.kernel[i]] + x.kernel[i + 1..];
  }

  lemma DeliverCopies(x: Xsk, y: Xsk, f: nat)
    requires x.rx.Sized() && y.rx.Sized() && Copying(x)
    requires y.user == x.user && y.rx.Contents() == x.rx.Contents() + [f] && y.rx.cons == x.rx.cons
    ensures Copying(y)
  {
    if x.user.Receiving? {
      assert y.rx.Contents()[..|x.user.got|] == x.rx.Contents()[..|x.user.got|];
    }
  }

  lemma DeliverGood(x: Xsk, frames: multiset<nat>, i: nat)
    requires Good(x, frames) && Enabled(x, KernelDeliver(i))
    ensures Good(Step(x, KernelDeliver(i)), frames)
  {
    Room(x, frames);
    DeliverPlaced(x, frames, i);
    DeliverCopies(x, Step(x, KernelDeliver(i)), x.kernel[i]);
  }

  lemma PollGood(x: Xsk, frames: multiset<nat>)
    requires Good(x, frames) && Enabled(x, Poll)
    ensures Good(Step(x, Poll), frames)
  {
  }

  lemma StepGood(x: Xsk, frames: multiset<nat>, a: Act)
    requires Good(x, frames) && Enabled(x, a)
    ensures Good(Step(x, a), frames)
  {
    match a
    case Poll => PollGood(x, frames);
    case Copy => CopyGood(x, frames);
    case Release => ReleaseGood(x, frames);
    case Write => WriteGood(x, frames);
    case Publish => PublishGood(x, frames);
    case KernelTake => TakeGood(x, frames);
    case KernelDeliver(i) => DeliverGood(x, frames, i);
  }

  // ---- main results ----

  /** Every frame in the fill ring, once; nothing anywhere else. */
  ghost predicate Initial(x: Xsk) {
    && x.fill.Ok() && x.rx.Ok() && x.rx.size == x.fill.size && x.rx.Count() == 0
    && x.kernel == [] && x.user.Idle?
    && forall j, k :: 0 <= j < k < |x.fill.Contents()| ==> x.fill.Contents()[j] != x.fill.Contents()[k]
  }

  lemma {:induction false} RunGood(x: Xsk, frames: multiset<nat>, acts: seq<Act>, y: Xsk)
    requires Good(x, frames) && Runs(x, acts, y)
    ensures Good(y, frames)
    decreases |acts|
  {
    if acts != [] {
      StepGood(x, frames, acts[0]);
      RunGood(Step(x, acts[0]), frames, acts[1..], y);
    }
  }

  lemma InitialGood(x: Xsk)
    requires Initial(x)
    ensures Good(x, multiset(x.fill.Contents()))
  {
    assert x.rx.Contents() == [];
  }

  lemma {:induction false} OnceEach(s: seq<nat>, f: nat)
    requires forall j, k :: 0 <= j < k < |s| ==> s[j] != s[k]
    ensures multiset(s)[f] == if f in s then 1 else 0
  {
    if s != [] {
      var n := |s| - 1;
      assert s == s[..n] + [s[n]];
      OnceEach(s[..n], f);
    }
  }

  /** However user and kernel interleave, and whatever the kernel takes and delivers:
      each submitted frame is in exactly one place, and nothing else ever appears. */
  lemma EachFrameInOnePlace(x: Xsk, acts: seq<Act>, y: Xsk, f: nat)
    requires Initial(x) && Runs(x, acts, y)
    ensures y.fill.Ok() && y.rx.Ok()
    ensures multiset(y.fill.Contents())[f] + multiset(y.kernel)[f] + multiset(y.rx.Contents())[f] + multiset(Batch(y.user))[f]
         == if f in x.fill.Contents() then 1 else 0
  {
    InitialGood(x);
    RunGood(x, multiset(x.fill.Contents()), acts, y);
    OnceEach(x.fill.Contents(), f);
  }

  /** The slot of the ring's entry `j`. */
  function EntrySlot(r: Ring, j: nat): nat
    requires r.size > 0
  {
    SlotOf(r.cons + j, r.size)
  }

  /** The slot a producer would write next holds an entry not yet consumed. */
  predicate Overwrites(r: Ring)
    requires r.size > 0
  {
    exists j :: 0 <= j < r.Count() && EntrySlot(r, j) == SlotOf(r.prod, r.size)
  }

  lemma RoomNoOverwrite(r: Ring)
    requires r.Ok() && r.Count() < r.size
    ensures !Overwrites(r)
  {
    ProducerSlot(r);
    forall j | 0 <= j < r.Count() ensures EntrySlot(r, j) != SlotOf(r.prod, r.size) {
      SlotsApart(r.cons + j, r.cons + r.Count(), r.size);
    }
  }

  /** Neither side checks for room, and neither needs to: a frame returned never lands
      on a fill entry the kernel has not consumed, and a frame delivered never lands on
      a descriptor the user has not released. */
  lemma NothingIsOverwritten(x: Xsk, acts: seq<Act>, y: Xsk)
    requires Initial(x) && Runs(x, acts, y)
    ensures y.fill.Sized() && y.rx.Sized()
    ensures y.user.Returning? ==> !Overwrites(y.fill)
    ensures y.kernel != [] ==> !Overwrites(y.rx)
  {
    var frames := multiset(x.fill.Contents());
    InitialGood(x);
    RunGood(x, frames, acts, y);
    Room(y, frames);
    if y.user.Returning? {
      RoomNoOverwrite(y.fill);
    }
    if y.kernel != [] {
      RoomNoOverwrite(y.rx);
    }
  }

  /** Since `x` polled, `y` is still on the same batch: the rx ring has at most grown. */
  predicate SamePoll(x: Xsk, y: Xsk)
    requires x.rx.Sized() && y.rx.Sized()
  {
    && y.user.Receiving? && y.user.prod == x.rx.prod && y.rx.cons == x.rx.cons
    && x.rx.Contents() <= y.rx.Contents()
  }

  lemma StillSamePoll(x: Xsk, y: Xsk, frames: multiset<nat>, a: Act)
    requires x.rx.Sized() && Good(y, frames) && SamePoll(x, y) && Enabled(y, a) && !a.Release?
    ensures Step(y, a).rx.Sized() && SamePoll(x, Step(y, a))
  {
    if a.KernelDeliver? {
      Room(y, frames);
      PushAppends(y.rx, y.kernel[a.i]);
    }
  }

  lemma {:induction false} PollRuns(x: Xsk, y: Xsk, frames: multiset<nat>, acts: seq<Act>, z: Xsk)
    requires x.rx.Sized() && Good(y, frames) && SamePoll(x, y) && Runs(y, acts, z)
    requires forall a :: a in acts ==> !a.Release?
    ensures Good(z, frames) && SamePoll(x, z)
    decreases |acts|
  {
    if acts != [] {
      assert acts[0] in acts && forall a :: a in acts[1..] ==> a in acts;
      StepGood(y, frames, acts[0]);
      StillSamePoll(x, y, frames, acts[0]);
      PollRuns(x, Step(y, acts[0]), frames, acts[1..], z);
    }
  }

  lemma PollStarts(x: Xsk)
    requires x.fill.Sized() && x.rx.Sized() && Enabled(x, Poll) && x.rx.cons != x.rx.prod
    ensures SamePoll(x, Step(x, Poll))
  {
  }

  /** A copy that has met the producer of its poll has all there was at it. */
  lemma CopiedSincePoll(x: Xsk, y: Xsk)
    requires x.rx.Ok() && y.rx.Ok() && Copying(y) && SamePoll(x, y) && Enabled(y, Release)
    ensures y.user.got == x.rx.Contents() != []
  {
    CopiedAll(y);
    assert |y.user.got| == x.rx.Count() == |x.rx.Contents()|;
    assert x.rx.Contents() == y.rx.Contents()[..|x.rx.Contents()|];
  }

  lemma ReleaseLeaves(y: Xsk)
    requires y.rx.Ok() && Copying(y) && Enabled(y, Release)
    ensures y.rx.Contents() == y.user.got + Step(y, Release).rx.Contents()
  {
    CopiedAll(y);
    DropTakes(y.rx, |y.user.got|);
  }

  /** A batch is exactly the rx ring's contents at the poll that began it, in order,
      whatever the kernel took and delivered meanwhile; releasing it leaves the rest. */
  lemma BatchIsWhatWasThere(w: Xsk, before: seq<Act>, x: Xsk, acts: seq<Act>, y: Xsk)
    requires Initial(w) && Runs(w, before, x) && Enabled(x, Poll) && Step(x, Poll) != x
    requires Runs(Step(x, Poll), acts, y) && Enabled(y, Release) && forall a :: a in acts ==> !a.Release?
    ensures x.rx.Sized() && y.user.got == x.rx.Contents() != []
    ensures y.rx.Contents() == y.user.got + Step(y, Release).rx.Contents()
  {
    var frames := multiset(w.fill.Contents());
    InitialGood(w);
    RunGood(w, frames, before, x);
    StepGood(x, frames, Poll);
    PollStarts(x);
    PollRuns(x, Step(x, Poll), frames, acts, y);
    CopiedSincePoll(x, y);
    ReleaseLeaves(y);
  }
}
