/** Bootstrapping from a snapshot and a buffer against having been live all along. */
module Bootstrap {
  import opened Wrappers
  import opened Book
  import opened Levels
  import opened InstrumentSpec
  import opened ShardSpec
  import opened ShardInvariant
  import opened ReorderWindow

  /** The well-formed deltas n+1, n+2, ... in order. */
  predicate Contiguous(n: nat, ds: seq<Delta>) {
    forall j :: 0 <= j < |ds| ==> ds[j].piSeq == n + 1 + j && !Malformed(ds[j].change)
  }

  predicate DistinctMkt(ds: seq<Delta>) {
    forall j, k :: 0 <= j < k < |ds| ==> ds[j].mseq != ds[k].mseq
  }

  ghost predicate ReadyAt(i: Inst, n: nat) {
    i.status == Ready && InstOk(i) && i.pending == map[] && i.lastSeq == n
  }

  /** The next delta at an instrument with an empty window. */
  lemma NextDelta(i: Inst, d: Delta, n: nat, held: seq<Delta>)
    requires ReadyAt(i, n) && d.piSeq == n + 1 && !Malformed(d.change)
    ensures Classify(i, d, held) == Outcome(ApplyOne(i, d), [], [AppliedDelta(d)])
    ensures ReadyAt(ApplyOne(i, d), n + 1)
  {
    ContiguousOk(i, d, held);
    var j := ApplyOne(i, d);
    assert j.pending == map[];
    assert Drain(j) == j && DrainRun(j) == [];
  }

  /** Live: each delta applies as it arrives. */
  lemma {:induction false} LiveInOrder(i: Inst, ds: seq<Delta>, n: nat)
    requires ReadyAt(i, n) && Contiguous(n, ds)
    ensures ReadyAt(Receive(i, ds), n + |ds|) && Receive(i, ds).book == InOrder(i.book, ds)
    decreases |ds|
  {
    if ds != [] {
      NextDelta(i, ds[0], n, []);
      assert Contiguous(n + 1, ds[1..]);
      LiveInOrder(ApplyOne(i, ds[0]), ds[1..], n + 1);
    }
  }

  lemma {:induction false} NewerAll(buf: seq<Delta>, anchor: nat)
    requires Sorted(buf) && (buf != [] ==> buf[0].mseq > anchor)
    ensures Newer(buf, anchor) == buf
    decreases |buf|
  {
    if buf != [] {
      NewerAll(buf[1..], anchor);
    }
  }

  /** Replay starts where the anchor ends. */
  lemma {:induction false} ReplaySkips(i: Inst, buf: seq<Delta>, held: seq<Delta>)
    requires Sorted(buf)
    ensures Replay(i, buf, held) == Replay(i, Newer(buf, i.lastMkt), held)
    decreases |buf|
  {
    if buf != [] {
      if buf[0].mseq <= i.lastMkt {
        ReplaySkips(i, buf[1..], held);
      } else {
        NewerAll(buf, i.lastMkt);
      }
    }
  }

  /** One more delta, replayed or received. */
  lemma BothNext(i: Inst, d: Delta, rest: seq<Delta>, n: nat, held: seq<Delta>)
    requires ReadyAt(i, n) && d.piSeq == n + 1 && !Malformed(d.change) && d.mseq > i.lastMkt
    ensures var o := Replay(ApplyOne(i, d), rest, held);
            Replay(i, [d] + rest, held) == Outcome(o.inst, o.spill, [AppliedDelta(d)] + o.events)
    ensures Receive(i, [d] + rest) == Receive(ApplyOne(i, d), rest)
  {
    NextDelta(i, d, n, held);
    NextDelta(i, d, n, []);
    assert ([d] + rest)[1..] == rest;
    assert [] + Replay(ApplyOne(i, d), rest, held).spill == Replay(ApplyOne(i, d), rest, held).spill;
  }

  /** Distinct mktdata seqs: replay is live application. */
  lemma {:induction false} ReplayDistinct(i: Inst, ds: seq<Delta>, n: nat, held: seq<Delta>)
    requires ReadyAt(i, n) && Contiguous(n, ds) && Sorted(ds) && DistinctMkt(ds)
    requires ds != [] ==> ds[0].mseq > i.lastMkt
    ensures Replay(i, ds, held) == Outcome(Receive(i, ds), [], Applied(ds))
    decreases |ds|
  {
    if ds != [] {
      NextDelta(i, ds[0], n, held);
      var rest := ds[1..];
      assert ds == [ds[0]] + rest;
      BothNext(i, ds[0], rest, n, held);
      assert Contiguous(n + 1, rest) && (rest != [] ==> rest[0].mseq > ds[0].mseq);
      ReplayDistinct(ApplyOne(i, ds[0]), rest, n + 1, held);
    }
  }

  /** With the next seq missing from what is left, the tracker stays where it is. */
  lemma {:induction false} ReplayStuck(i: Inst, ds: seq<Delta>, held: seq<Delta>)
    requires InstOk(i)
    requires forall d :: d in ds ==> d.piSeq > i.lastSeq + 1 && !Malformed(d.change)
    ensures Replay(i, ds, held).inst.lastSeq == i.lastSeq
    decreases |ds|
  {
    if ds != [] {
      assert ds[0] in ds && forall d :: d in ds[1..] ==> d in ds;
      if ds[0].mseq <= i.lastMkt || i.status != Ready {
        ReplayStuck(i, ds[1..], held);
      } else {
        ReadyExpectsNext(i);
        ClassifyOk(i, ds[0], held);
        ReplayStuck(Classify(i, ds[0], held).inst, ds[1..], held);
      }
    }
  }

  /** Two deltas of one datagram: the second is taken for one the first covers. */
  lemma {:induction false} ReplayShared(i: Inst, ds: seq<Delta>, n: nat, held: seq<Delta>)
    requires ReadyAt(i, n) && Contiguous(n, ds) && Sorted(ds) && !DistinctMkt(ds)
    requires ds[0].mseq > i.lastMkt
    ensures Replay(i, ds, held).inst.lastSeq < n + |ds|
    decreases |ds|
  {
    NextDelta(i, ds[0], n, held);
    var j, rest := ApplyOne(i, ds[0]), ds[1..];
    assert Contiguous(n + 1, rest);
    if rest[0].mseq > ds[0].mseq {
      ReplayShared(j, rest, n + 1, held);
    } else {
      assert Replay(j, rest, held) == Replay(j, rest[1..], held);
      ReplayStuck(j, rest[1..], held);
    }
  }

  /** Bootstrap equals live. `i` has just committed a snapshot at n and `live` was
      ready at n with the same book; the buffer behind the anchor is n+1..m. Replay
      reaches m exactly when those deltas carry distinct mktdata seqs, and then status,
      tracker, book and window are those of the instrument that received them live. */
  lemma BootstrapIsLive(i: Inst, live: Inst, buf: seq<Delta>, n: nat, held: seq<Delta>)
    requires ReadyAt(i, n) && ReadyAt(live, n) && live.book == i.book
    requires Sorted(buf) && Contiguous(n, Newer(buf, i.lastMkt))
    ensures var ds := Newer(buf, i.lastMkt);
            var o, l := Replay(i, buf, held), Receive(live, ds);
            && l.status == Ready && l.lastSeq == n + |ds|
            && (o.inst.lastSeq == l.lastSeq <==> DistinctMkt(ds))
            && (DistinctMkt(ds) ==>
                  o.inst.status == l.status && o.inst.book == l.book && o.inst.pending == l.pending &&
                  o.spill == [] && o.events == Applied(ds))
  {
    var ds := Newer(buf, i.lastMkt);
    NewerOk(buf, i.lastMkt);
    ReplaySkips(i, buf, held);
    LiveInOrder(live, ds, n);
    LiveInOrder(i, ds, n);
    assert ds != [] ==> ds[0] in ds;
    if DistinctMkt(ds) {
      ReplayDistinct(i, ds, n, held);
    } else {
      ReplayShared(i, ds, n, held);
    }
  }

  /** A datagram that carries two deltas of one instrument, buffered and replayed:
      the second never reaches the book and the instrument is left serving behind. */
  lemma SharedDatagramLosesADelta()
    ensures var i := FRESH.(status := Ready, depthBound := Some(0), lastMkt := 100, lastSeq := 7);
            var up := LevelUpdate(Bid, 10, Level(1, 1, 0));
            var o := Replay(i, [Delta(101, 8, up), Delta(101, 9, up)], []);
            o.inst.status == Ready && o.inst.lastSeq == 8 && o.spill == [] && o.inst.pending == map[]
  {
    var i := FRESH.(status := Ready, depthBound := Some(0), lastMkt := 100, lastSeq := 7);
    var up := LevelUpdate(Bid, 10, Level(1, 1, 0));
    var a, b := Delta(101, 8, up), Delta(101, 9, up);
    assert ReadyAt(i, 7);
    NextDelta(i, a, 7, []);
    assert [a, b][1..] == [b];
    var j := ApplyOne(i, a);
    assert Replay(i, [a, b], []).inst == Replay(j, [b], []).inst;
    assert [b][1..] == [];
    assert Replay(j, [b], []) == Replay(j, [], []);
  }

  // ---- from the end record on ----

  lemma {:induction false} NewerSplit(covered: seq<Delta>, ds: seq<Delta>, anchor: nat)
    requires forall d :: d in covered ==> d.mseq <= anchor
    requires forall d :: d in ds ==> d.mseq > anchor
    ensures Newer(covered + ds, anchor) == ds
    decreases |covered| + |ds|
  {
    if covered != [] {
      assert (covered + ds)[0] == covered[0] && (covered + ds)[1..] == covered[1..] + ds && covered[0] in covered;
      NewerSplit(covered[1..], ds, anchor);
    } else if ds != [] {
      assert covered + ds == ds && ds[0] in ds && [] + ds[1..] == ds[1..];
      NewerSplit([], ds[1..], anchor);
    }
  }

  /** The state a committing end leaves before any replay. */
  lemma CommittedReady(i: Inst, h: GroupHeader)
    requires InstOk(i) && i.shadow.Some? && i.shadow.value.header == h && Commits(i, h.id, h.anchor)
    ensures ReadyAt(Commit(i), h.last) && Commit(i).book == i.shadow.value.book && Commit(i).lastMkt == h.anchor
  {
    EndOk(i, h.id, h.anchor);
    assert End(i, h.id, h.anchor) == Commit(i);
  }

  /** An end commits the group of `h`, whole, and the buffer holds what its anchor covers
      and then the deltas right behind its Last Instrument Seq, from later datagrams of
      their own: the instrument serves at the last of them, with the snapshot's book and
      every one of them applied, reports just that, and has nothing left over. */
  lemma SnapshotEndBootstraps(s: Shard, k: Key, h: GroupHeader, book: Book, covered: seq<Delta>, ds: seq<Delta>, t: Shard,
                              evs: seq<Event>)
    requires Core(s) && InBudget(s) && k in s.insts && s.insts[k].shadow == Some(Shadow(h, h.total, book))
    requires s.insts[k].requiredSeq.Some? ==> h.last >= s.insts[k].requiredSeq.value
    requires s.Buf(k) == covered + ds && Contiguous(h.last, ds) && DistinctMkt(ds)
    requires (forall d :: d in covered ==> d.mseq <= h.anchor) && (forall d :: d in ds ==> d.mseq > h.anchor)
    requires HandlesEnd(s, k, h.id, h.anchor, t, evs)
    ensures k in t.insts && t.Buf(k) == [] && evs == [AppliedSnapshot(h.id, h.anchor)] + Applied(ds)
    ensures var j := t.insts[k];
            && j.status == Ready && j.lastSeq == h.last + |ds| && j.book == InOrder(book, ds)
            && j.pending == map[] && j.shadow.None? && j.lastMkt == if ds == [] then h.anchor else ds[|ds| - 1].mseq
  {
    var i, buf := s.insts[k], s.Buf(k);
    assert KeyOk(s, k);
    CommittedReady(i, h);
    var u, held, o := CommitSteps(s, k, h.id, h.anchor, t, evs);
    BufferSorted(s, k);
    NewerSplit(covered, ds, h.anchor);
    NewerOk(buf, h.anchor);
    ReplaySkips(Commit(i), buf, held);
    assert ds != [] ==> ds[0] in ds;
    assert Newer(buf, Commit(i).lastMkt) == ds;
    ReplayDistinct(Commit(i), ds, h.last, held);
    LiveInOrder(Commit(i), ds, h.last);
    ReceivedLast(Commit(i), ds, h.last);
    ReplayShadow(Commit(i), buf, held);
    assert t == u;
  }

  lemma BufferSorted(s: Shard, k: Key)
    requires Core(s)
    ensures Sorted(s.Buf(k))
  {
    assert KeyOk(s, k);
  }

  lemma {:induction false} ReceivedLast(i: Inst, ds: seq<Delta>, n: nat)
    requires ReadyAt(i, n) && Contiguous(n, ds)
    ensures Receive(i, ds).lastMkt == if ds == [] then i.lastMkt else ds[|ds| - 1].mseq
    decreases |ds|
  {
    if ds != [] {
      NextDelta(i, ds[0], n, []);
      assert Contiguous(n + 1, ds[1..]);
      ReceivedLast(ApplyOne(i, ds[0]), ds[1..], n + 1);
    }
  }

  /** The same, price by price. */
  lemma BootstrappedLevels(s: Shard, k: Key, h: GroupHeader, book: Book, covered: seq<Delta>, ds: seq<Delta>, t: Shard,
                           evs: seq<Event>, side: Side, price: Price)
    requires Core(s) && InBudget(s) && k in s.insts && s.insts[k].shadow == Some(Shadow(h, h.total, book))
    requires s.insts[k].requiredSeq.Some? ==> h.last >= s.insts[k].requiredSeq.value
    requires s.Buf(k) == covered + ds && Contiguous(h.last, ds) && DistinctMkt(ds)
    requires (forall d :: d in covered ==> d.mseq <= h.anchor) && (forall d :: d in ds ==> d.mseq > h.anchor)
    requires HandlesEnd(s, k, h.id, h.anchor, t, evs)
    ensures k in t.insts
    ensures forall j: nat :: LastWord(ds, j, side, price) ==> Standing(t.insts[k].book, side, price) == Said(ds[j].change)
    ensures Unmentioned(ds, side, price) ==> Standing(t.insts[k].book, side, price) == Standing(book, side, price)
  {
    SnapshotEndBootstraps(s, k, h, book, covered, ds, t, evs);
    RunLeaves(book, ds, side, price);
  }
}
