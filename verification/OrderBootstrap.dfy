/** The Market-by-Order bot's bootstrap: an end record, the shadow it commits, and the
    deltas buffered behind it. */
module OrderBootstrap {
  import opened Wrappers
  import InstrumentSpec
  import O = OrderSpec
  import opened B = OrderBooks

  predicate Sorted(buf: seq<Delta>) {
    forall i, j :: 0 <= i < j < |buf| ==> buf[i].mseq <= buf[j].mseq
  }

  predicate DistinctMkt(ds: seq<Delta>) {
    forall i, j :: 0 <= i < j < |ds| ==> ds[i].mseq != ds[j].mseq
  }

  /** Serving at `n`, with nothing held that a delta behind it could release. */
  predicate Behind(i: O.OrderInst, n: nat) {
    i.status.Ready? && i.lastSeq == n && forall s :: s in i.pending ==> s <= n + 1
  }

  lemma NextDelivery(i: O.OrderInst, d: Delta, n: nat)
    requires Behind(i, n) && d.piSeq == n + 1
    ensures O.Deliver(i, d) == O.Delivery(O.ApplyOne(i, d), [d], false) && Behind(O.ApplyOne(i, d), n + 1)
  {
    var j := O.ApplyOne(i, d);
    assert n + 2 !in j.pending;
    assert O.DrainRun(j) == [] && [d] + [] == [d];
  }

  /** Replay passes over what the anchor covers. */
  lemma {:induction false} ReplayCovered(i: O.OrderInst, covered: seq<Delta>, ds: seq<Delta>)
    requires forall d :: d in covered ==> d.mseq <= i.lastMkt
    ensures O.Replay(i, covered + ds) == O.Replay(i, ds)
    decreases |covered|
  {
    if covered == [] {
      assert covered + ds == ds;
    } else {
      assert covered[0] in covered && (covered + ds)[0] == covered[0] && (covered + ds)[1..] == covered[1..] + ds;
      ReplayCovered(i, covered[1..], ds);
    }
  }

  lemma {:induction false} FoldedFirst(b: O.Orders, d: Delta, rest: seq<Delta>)
    ensures Folded(b, [d] + rest) == Folded(O.Apply(b, d.op), rest)
    decreases |rest|
  {
    var ds, n := [d] + rest, |rest|;
    if rest == [] {
      assert ds[..0] == [] && Folded(b, []) == b;
    } else {
      assert ds[..n] == [d] + rest[..n - 1] && ds[n] == rest[n - 1];
      FoldedFirst(b, d, rest[..n - 1]);
    }
  }

  lemma ReplayNext(i: O.OrderInst, d: Delta, rest: seq<Delta>, n: nat)
    requires Behind(i, n) && d.piSeq == n + 1 && d.mseq > i.lastMkt
    ensures var o := O.Replay(O.ApplyOne(i, d), rest);
            O.Replay(i, [d] + rest) == O.Delivery(o.inst, [d] + o.applied, o.demoted)
  {
    NextDelivery(i, d, n);
    assert ([d] + rest)[1..] == rest;
  }

  /** `o` is `i` with all of `ds` applied in order, and nothing else. */
  predicate CaughtUp(i: O.OrderInst, ds: seq<Delta>, n: nat, o: O.Delivery) {
    && o.applied == ds && !o.demoted
    && o.inst.status == i.status && o.inst.pending == i.pending && o.inst.shadow == i.shadow
    && o.inst.book == Folded(i.book, ds) && o.inst.lastSeq == n + |ds|
    && o.inst.lastMkt == if ds == [] then i.lastMkt else ds[|ds| - 1].mseq
  }

  lemma {:induction false} ReplayInOrder(i: O.OrderInst, ds: seq<Delta>, n: nat)
    requires Behind(i, n) && Contiguous(n, ds) && Sorted(ds) && DistinctMkt(ds)
    requires ds != [] ==> ds[0].mseq > i.lastMkt
    ensures CaughtUp(i, ds, n, O.Replay(i, ds))
    decreases |ds|
  {
    if ds != [] {
      var d, rest := ds[0], ds[1..];
      assert ds == [d] + rest;
      NextDelivery(i, d, n);
      ReplayNext(i, d, rest, n);
      assert Contiguous(n + 1, rest) && (rest != [] ==> rest[0] == ds[1] && ds[1].mseq > d.mseq);
      ReplayInOrder(O.ApplyOne(i, d), rest, n + 1);
      FoldedFirst(i.book, d, rest);
    }
  }

  /** With the next seq missing from what is left, the tracker stays where it is. */
  lemma {:induction false} ReplayStuck(i: O.OrderInst, ds: seq<Delta>)
    requires forall d :: d in ds ==> d.piSeq > i.lastSeq + 1
    ensures O.Replay(i, ds).inst.lastSeq == i.lastSeq
    decreases |ds|
  {
    if ds != [] {
      assert ds[0] in ds && forall d :: d in ds[1..] ==> d in ds;
      ReplayStuck(if ds[0].mseq <= i.lastMkt then i else O.Deliver(i, ds[0]).inst, ds[1..]);
    }
  }

  /** Two deltas of one datagram: the second is taken for one the first covers. */
  lemma {:induction false} ReplayShared(i: O.OrderInst, ds: seq<Delta>, n: nat)
    requires Behind(i, n) && Contiguous(n, ds) && Sorted(ds) && !DistinctMkt(ds)
    requires ds != [] ==> ds[0].mseq > i.lastMkt
    ensures O.Replay(i, ds).inst.lastSeq < n + |ds|
    decreases |ds|
  {
    var d, j, rest := ds[0], O.ApplyOne(i, ds[0]), ds[1..];
    NextDelivery(i, d, n);
    assert Contiguous(n + 1, rest);
    if rest[0].mseq > d.mseq {
      ReplayShared(j, rest, n + 1);
    } else {
      assert O.Replay(j, rest) == O.Replay(j, rest[1..]);
      ReplayStuck(j, rest[1..]);
    }
  }

  /** The same from a shadow and a whole buffer. */
  lemma CommitBootstraps(i: O.OrderInst, h: O.OrderHeader, book: O.Orders, covered: seq<Delta>, ds: seq<Delta>)
    requires i.shadow == Some(O.OrderShadow(h, h.total, book)) && forall n :: n in i.pending ==> n <= h.last + 1
    requires Sorted(ds) && Contiguous(h.last, ds)
    requires (forall d :: d in covered ==> d.mseq <= h.anchor) && (forall d :: d in ds ==> d.mseq > h.anchor)
    ensures O.Commits(i, h.id, h.anchor)
    ensures var j := O.Replay(O.Commit(i), covered + ds).inst;
            && j.shadow.None? && (j.lastSeq == h.last + |ds| <==> DistinctMkt(ds))
            && (DistinctMkt(ds) ==>
                  && j.status.Ready? && j.book == Folded(book, ds) && j.pending == i.pending
                  && j.lastMkt == if ds == [] then h.anchor else ds[|ds| - 1].mseq)
  {
    var c := O.Commit(i);
    assert Behind(c, h.last);
    ReplayCovered(c, covered, ds);
    ReplayShadow(c, ds);
    assert ds != [] ==> ds[0] in ds;
    if DistinctMkt(ds) {
      ReplayInOrder(c, ds, h.last);
    } else {
      ReplayShared(c, ds, h.last);
    }
  }

  /** An end commits the group of `h`, whole, and the buffer holds what its anchor covers
      and then the deltas right behind its Last Instrument Seq, from later datagrams.
      The instrument serves at the last of them exactly when no two share a datagram, and
      then with the snapshot's book and every one of them applied. Nothing stays
      buffered, and no other instrument is touched. */
  lemma OrderEndBootstraps(s: O.OrderShard, k: Key, h: O.OrderHeader, book: O.Orders, covered: seq<Delta>, ds: seq<Delta>,
                           resetCount: nat)
    requires k in s.insts && s.insts[k].shadow == Some(O.OrderShadow(h, h.total, book))
    requires forall n :: n in s.insts[k].pending ==> n <= h.last + 1
    requires s.Buf(k) == covered + ds && Sorted(ds) && Contiguous(h.last, ds)
    requires (forall d :: d in covered ==> d.mseq <= h.anchor) && (forall d :: d in ds ==> d.mseq > h.anchor)
    ensures var t := O.HandleRecord(s, O.GroupEnd(k.ch, k.id, resetCount, h.id, h.anchor));
            && k in t.insts && k !in t.bufs && t.insts[k].shadow.None?
            && (t.insts[k].lastSeq == h.last + |ds| <==> DistinctMkt(ds))
            && (DistinctMkt(ds) ==>
                  && t.insts[k].status.Ready? && t.insts[k].book == Folded(book, ds)
                  && t.insts[k].lastMkt == if ds == [] then h.anchor else ds[|ds| - 1].mseq)
            && (forall other :: other != k ==> t.ShareOf(other) == s.ShareOf(other))
  {
    CommitBootstraps(s.insts[k], h, book, covered, ds);
    EndReplays(s, k, h.id, h.anchor, resetCount);
  }

  /** What a committing end leaves of its shard. */
  lemma EndReplays(s: O.OrderShard, k: Key, id: nat, anchor: nat, resetCount: nat)
    requires k in s.insts && O.Commits(s.insts[k], id, anchor)
    ensures var t := O.HandleRecord(s, O.GroupEnd(k.ch, k.id, resetCount, id, anchor));
            && k in t.insts && k !in t.bufs && t.insts[k] == O.Replay(O.Commit(s.insts[k]), s.Buf(k)).inst
            && (forall other :: other != k ==> t.ShareOf(other) == s.ShareOf(other))
  {
    assert s.ShareOf(k).Deltas() == s.Buf(k);
  }

  /** The only way into service: the end of the group under way, by id and anchor, with as
      many orders as it announced. Any other end leaves status, book, trackers and buffer
      as they were. */
  lemma OnlyWholeGroupsServe(s: O.OrderShard, m: Message, k: Key)
    requires !s.InstFor(k).status.Ready?
    ensures var i, t := s.InstFor(k), Step(s, m);
            var whole := m.Rec? && m.rec.GroupEnd? && m.rec.At() == k && i.shadow.Some? &&
                         var sh := i.shadow.value;
                         sh.header.id == m.rec.id && sh.header.anchor == m.rec.anchor && sh.received == sh.header.total;
            && (t.InstFor(k).status.Ready? ==> whole)
            && (m.Rec? && m.rec.GroupEnd? && m.rec.At() == k && !whole ==>
                  t.InstFor(k) == i.(shadow := t.InstFor(k).shadow) && t.Buf(k) == s.Buf(k))
  {
    if m.Rec? {
      RecordServes(s, m.rec, k);
    }
  }

  lemma RecordServes(s: O.OrderShard, rec: O.OrderRecord, k: Key)
    requires !s.InstFor(k).status.Ready?
    ensures var i, t := s.InstFor(k), O.HandleRecord(s, rec);
            var ended := rec.GroupEnd? && rec.At() == k;
            && (!ended ==> !t.InstFor(k).status.Ready?)
            && (ended && !(k in s.insts && O.Commits(i, rec.id, rec.anchor)) ==>
                  t.InstFor(k) == i.(shadow := t.InstFor(k).shadow) && t.Buf(k) == s.Buf(k))
  {
  }
}
