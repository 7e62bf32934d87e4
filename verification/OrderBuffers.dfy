/** The Market-by-Order bot's delta buffers, over every run of a shard. */
module OrderBuffers {
  import opened Wrappers
  import InstrumentSpec
  import O = OrderSpec
  import opened B = OrderBooks
  import opened OrderBootstrap

  /** `r` is `buf` with `d` put in at `j`, behind everything that is not later. */
  predicate SplicedAt(buf: seq<Delta>, d: Delta, r: seq<Delta>, j: nat) {
    && j <= |buf| && r == buf[..j] + [d] + buf[j..]
    && (forall i :: 0 <= i < j ==> buf[i].mseq <= d.mseq) && (forall i :: j <= i < |buf| ==> buf[i].mseq > d.mseq)
  }

  ghost predicate Spliced(buf: seq<Delta>, d: Delta, r: seq<Delta>) {
    exists j: nat :: SplicedAt(buf, d, r, j)
  }

  lemma {:induction false} InsertSplices(buf: seq<Delta>, d: Delta)
    requires Sorted(buf)
    ensures Spliced(buf, d, O.InsertSorted(buf, d))
    decreases |buf|
  {
    var n := |buf|;
    if n == 0 || buf[n - 1].mseq <= d.mseq {
      assert SplicedAt(buf, d, buf + [d], n);
    } else {
      var before, last := buf[..n - 1], buf[n - 1];
      InsertSplices(before, d);
      var j: nat :| SplicedAt(before, d, O.InsertSorted(before, d), j);
      assert buf == before + [last];
      SpliceUnder(before, last, d, O.InsertSorted(before, d), j);
    }
  }

  lemma SpliceUnder(before: seq<Delta>, last: Delta, d: Delta, r: seq<Delta>, j: nat)
    requires SplicedAt(before, d, r, j) && last.mseq > d.mseq
    ensures SplicedAt(before + [last], d, r + [last], j)
  {
    var buf := before + [last];
    assert buf[..j] == before[..j] && buf[j..] == before[j..] + [last];
    assert r + [last] == buf[..j] + [d] + buf[j..];
  }

  lemma SplicedSorted(buf: seq<Delta>, d: Delta, r: seq<Delta>)
    requires Sorted(buf) && Spliced(buf, d, r)
    ensures Sorted(r) && |r| == |buf| + 1
  {
  }

  /** A delta goes in behind every buffered one that is not later. Only a full buffer
      gives up an entry, its earliest, and it does so before the new one goes in. */
  lemma BufferingSplices(buf: seq<Delta>, d: Delta)
    requires Sorted(buf)
    ensures Spliced(if |buf| < 10000 then buf else buf[1..], d, O.Buffered(buf, d))
    ensures Sorted(O.Buffered(buf, d))
    ensures |O.Buffered(buf, d)| == if |buf| < 10000 then |buf| + 1 else |buf|
  {
    var kept := if |buf| < 10000 then buf else buf[1..];
    InsertSplices(kept, d);
    SplicedSorted(kept, d, O.Buffered(buf, d));
  }

  /** `r` is what lies behind `anchor` in `buf`. */
  ghost predicate TailPast(buf: seq<Delta>, anchor: nat, r: seq<Delta>) {
    exists cut: nat :: CutAt(buf, anchor, r, cut)
  }

  predicate CutAt(buf: seq<Delta>, anchor: nat, r: seq<Delta>, cut: nat) {
    && cut <= |buf| && r == buf[cut..]
    && (forall i :: 0 <= i < cut ==> buf[i].mseq <= anchor) && (forall i :: cut <= i < |buf| ==> buf[i].mseq > anchor)
  }

  lemma {:induction false} LaterAll(buf: seq<Delta>, anchor: nat)
    requires Sorted(buf) && (buf != [] ==> buf[0].mseq > anchor)
    ensures O.Later(buf, anchor) == buf
    decreases |buf|
  {
    if buf != [] {
      LaterAll(buf[1..], anchor);
    }
  }

  lemma {:induction false} LaterIsTail(buf: seq<Delta>, anchor: nat)
    requires Sorted(buf)
    ensures TailPast(buf, anchor, O.Later(buf, anchor))
    decreases |buf|
  {
    if buf == [] {
      assert CutAt(buf, anchor, [], 0);
    } else if buf[0].mseq > anchor {
      LaterAll(buf, anchor);
      assert CutAt(buf, anchor, buf, 0);
    } else {
      LaterIsTail(buf[1..], anchor);
      var cut: nat :| CutAt(buf[1..], anchor, O.Later(buf[1..], anchor), cut);
      CutFurther(buf, anchor, O.Later(buf, anchor), cut);
    }
  }

  lemma CutFurther(buf: seq<Delta>, anchor: nat, r: seq<Delta>, cut: nat)
    requires buf != [] && buf[0].mseq <= anchor && CutAt(buf[1..], anchor, r, cut)
    ensures CutAt(buf, anchor, r, cut + 1)
  {
    assert forall i :: 1 <= i < |buf| ==> buf[i] == buf[1..][i - 1];
  }

  /** A reset of a known instrument starts it afresh and keeps exactly the deltas behind
      the new anchor, in order; of an unknown one it does nothing. */
  lemma ResetKeepsTheTail(s: O.OrderShard, k: Key, resetCount: nat, anchor: nat)
    requires Sorted(s.Buf(k))
    ensures var t := O.HandleRecord(s, O.BookReset(k.ch, k.id, resetCount, anchor));
            && (k !in s.insts ==> t.ShareOf(k) == s.ShareOf(k))
            && (k in s.insts ==>
                  && k in t.insts && t.insts[k] == O.OrderInst(InstrumentSpec.AwaitingSnapshot, O.Orders(map[], map[]), 0, 0, None, map[])
                  && TailPast(s.Buf(k), anchor, t.Buf(k)))
            && (forall other :: other != k ==> t.ShareOf(other) == s.ShareOf(other))
  {
    LaterIsTail(s.Buf(k), anchor);
    assert s.ShareOf(k).Deltas() == s.Buf(k);
  }

  predicate BufferOk(buf: seq<Delta>) {
    Sorted(buf) && |buf| <= 10000
  }

  lemma DeltasAre(s: O.OrderShard, k: Key)
    ensures s.ShareOf(k).Deltas() == s.Buf(k)
  {
  }

  /** The buffer one record leaves of an instrument. */
  lemma RecordBuffers(s: O.OrderShard, rec: O.OrderRecord, k: Key)
    requires BufferOk(s.Buf(k))
    ensures BufferOk(O.HandleRecord(s, rec).Buf(k))
  {
    DeltasAre(s, k);
    var t := O.HandleRecord(s, rec);
    match rec
    case OrderChange(_, _, _, d) => BufferingSplices(s.Buf(k), d);
    case BookReset(_, _, _, anchor) =>
      LaterIsTail(s.Buf(k), anchor);
    case _ =>
  }

  /** Over every run: each buffer is sorted and holds at most ten thousand deltas. */
  lemma {:induction false} EveryBufferOk(inbox: seq<Message>, k: Key)
    ensures BufferOk(After(inbox).Buf(k))
  {
    if inbox != [] {
      var before, m := inbox[..|inbox| - 1], inbox[|inbox| - 1];
      EveryBufferOk(before, k);
      if m.Rec? {
        RecordBuffers(After(before), m.rec, k);
      }
    }
  }

  /** What becomes of a delta: a serving instrument keeps it out of the buffer unless it
      demotes, and anything else buffers it. */
  lemma BufferedExactlyWhen(s: O.OrderShard, k: Key, resetCount: nat, d: Delta)
    requires BufferOk(s.Buf(k))
    ensures var t := O.HandleRecord(s, O.OrderChange(k.ch, k.id, resetCount, d));
            if k in s.insts && s.insts[k].status.Ready? && k in t.insts && t.insts[k].status.Ready?
            then t.Buf(k) == s.Buf(k)
            else Spliced(if |s.Buf(k)| < 10000 then s.Buf(k) else s.Buf(k)[1..], d, t.Buf(k))
  {
    DeltasAre(s, k);
    BufferingSplices(s.Buf(k), d);
    if k in s.insts && s.insts[k].status.Ready? {
      DrainShadow(O.ApplyOne(s.insts[k], d));
    }
  }
}
