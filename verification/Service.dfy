/** How an instrument of the Market-by-Price bot leaves service and what it keeps then,
    told from messages and the events they return. */
module Service {
  import opened Wrappers
  import opened Book
  import opened InstrumentSpec
  import opened ShardSpec
  import opened ShardInvariant
  import opened CrossedIndex
  import opened Bootstrap

  predicate Demotes(e: Event) {
    e.PerInstrumentGap? || e.MalformedDelta?
  }

  predicate Demotion(evs: seq<Event>) {
    exists e :: e in evs && Demotes(e)
  }

  lemma AppliedIsNoDemotion(ds: seq<Delta>)
    ensures !Demotion(Applied(ds))
  {
  }

  lemma DemotionOf(e: Event, rest: seq<Event>)
    ensures Demotion([e] + rest) <==> Demotes(e) || Demotion(rest)
  {
    if Demotes(e) {
      assert ([e] + rest)[0] == e;
    }
    if Demotion(rest) {
      var x :| x in rest && Demotes(x);
      assert x in [e] + rest;
    }
  }

  lemma DemotionOfBoth(a: seq<Event>, b: seq<Event>)
    ensures Demotion(a + b) <==> Demotion(a) || Demotion(b)
  {
    if Demotion(a) {
      var x :| x in a && Demotes(x);
      assert x in a + b;
    }
    if Demotion(b) {
      var x :| x in b && Demotes(x);
      assert x in a + b;
    }
  }

  /** A demotion is always reported, and only a demotion is. */
  lemma ClassifyReports(i: Inst, d: Delta, held: seq<Delta>)
    requires InstOk(i) && i.status == Ready
    ensures var o := Classify(i, d, held); o.inst.status != Ready <==> Demotion(o.events)
  {
    ReadyExpectsNext(i);
    if d.piSeq == i.lastSeq + 1 && !Malformed(d.change) {
      ContiguousOk(i, d, held);
      AppliedIsNoDemotion([d] + DrainRun(ApplyOne(i, d)));
    } else {
      var o := Classify(i, d, held);
      if o.events != [] {
        assert o.events[0] in o.events;
      }
    }
  }

  lemma {:induction false} ReplayReports(i: Inst, buf: seq<Delta>, held: seq<Delta>)
    requires InstOk(i)
    ensures var o := Replay(i, buf, held); o.inst.status != Ready <==> i.status != Ready || Demotion(o.events)
    decreases |buf|
  {
    if buf != [] {
      if buf[0].mseq <= i.lastMkt || i.status != Ready {
        ReplayReports(i, buf[1..], held);
      } else {
        var now := Classify(i, buf[0], held);
        ClassifyReports(i, buf[0], held);
        ClassifyOk(i, buf[0], held);
        ReplayReports(now.inst, buf[1..], held);
        DemotionOfBoth(now.events, Replay(now.inst, buf[1..], held).events);
      }
    }
  }

  /** Buffering puts no instrument into service and takes none out of it. */
  lemma AgedServes(u: Shard, t: Shard, j: Key)
    requires OnlyAged(u, t)
    ensures t.InstFor(j).status == Ready <==> u.InstFor(j).status == Ready
    ensures u.InstFor(j).status == Ready ==> t.InstFor(j) == u.InstFor(j)
  {
    if j in t.insts {
      assert Aged(u.InstFor(j), t.insts[j]);
    }
  }

  /** A delta takes a serving instrument out of service exactly when it reports a gap or a
      malformed record, and touches no other serving instrument. */
  lemma DeltaReports(s: Shard, k: Key, d: Delta, t: Shard, evs: seq<Event>)
    requires Core(s) && InBudget(s) && HandlesDelta(s, k, d, t, evs)
    ensures s.InstFor(k).status == Ready ==> (t.InstFor(k).status != Ready <==> Demotion(evs))
    ensures forall j :: j != k && s.InstFor(j).status == Ready ==> t.InstFor(j) == s.InstFor(j)
  {
    var u, held, spill := DeltaSteps(s, k, d, t, evs);
    BuffersAllOk(u, k, spill, t);
    AgedServes(u, t, k);
    if k in s.insts && s.insts[k].status == Ready {
      assert KeyOk(s, k);
      ClassifyReports(s.insts[k], d, held);
    }
    forall j | j != k && s.InstFor(j).status == Ready ensures t.InstFor(j) == s.InstFor(j) {
      AgedServes(u, t, j);
    }
  }

  lemma CommitReports(s: Shard, k: Key, id: nat, anchor: nat, t: Shard, evs: seq<Event>)
    requires Core(s) && InBudget(s) && HandlesEnd(s, k, id, anchor, t, evs)
    requires k in s.insts && Commits(s.insts[k], id, anchor)
    ensures t.InstFor(k).status != Ready <==> Demotion(evs)
    ensures forall j :: j != k && s.InstFor(j).status == Ready ==> t.InstFor(j) == s.InstFor(j)
  {
    var u, held, o := CommitSteps(s, k, id, anchor, t, evs);
    CommittedServes(s, k, id, anchor, o, held, evs);
    BuffersAllOk(u, k, o.spill, t);
    TakePutSame(s, k, o.inst);
    AgedServes(u, t, k);
    forall j | j != k && s.InstFor(j).status == Ready ensures t.InstFor(j) == s.InstFor(j) {
      AgedServes(u, t, j);
    }
  }

  /** An end leaves a serving instrument in service, or a committed one in it, exactly
      unless its replay reports a gap or a malformed record. */
  lemma EndReports(s: Shard, k: Key, id: nat, anchor: nat, t: Shard, evs: seq<Event>)
    requires Core(s) && InBudget(s) && HandlesEnd(s, k, id, anchor, t, evs)
    ensures s.InstFor(k).status == Ready || evs != [] ==> (t.InstFor(k).status != Ready <==> Demotion(evs))
    ensures forall j :: j != k && s.InstFor(j).status == Ready ==> t.InstFor(j) == s.InstFor(j)
  {
    if k in s.insts && Commits(s.insts[k], id, anchor) {
      CommitReports(s, k, id, anchor, t, evs);
    } else {
      assert evs == [] && t.InstFor(k).status == s.InstFor(k).status;
      DropShadowSame(s, k, id, anchor, t, evs);
    }
  }

  lemma CommittedServes(s: Shard, k: Key, id: nat, anchor: nat, o: Outcome, held: seq<Delta>, evs: seq<Event>)
    requires Core(s) && k in s.insts && Commits(s.insts[k], id, anchor)
    requires o == Replay(Commit(s.insts[k]), s.Buf(k), held) && evs == [AppliedSnapshot(id, anchor)] + o.events
    ensures o.inst.status != Ready <==> Demotion(evs)
  {
    assert KeyOk(s, k);
    EndOk(s.insts[k], id, anchor);
    ReplayReports(Commit(s.insts[k]), s.Buf(k), held);
    DemotionOf(AppliedSnapshot(id, anchor), o.events);
  }

  /** The message forgets all the shard knows of `k`, or restarts its book. */
  predicate Restarts(s: Shard, m: Message, k: Key) {
    match m
    case Rec(rec) => rec.At() == k && rec.body.ResetBook?
    case Wipe(ch) => k.ch == ch
    case Prune(seqNo) => k in s.refdata && s.refdata[k].manifestSeq + 1 < seqNo
    case _ => false
  }

  predicate MovesBook(m: Message, k: Key) {
    m.Rec? && m.rec.At() == k && (m.rec.body.BookDelta? || m.rec.body.SnapshotEnd?)
  }

  lemma DeltaStops(s: Shard, rec: Record, t: Shard, evs: seq<Event>, k: Key)
    requires Core(s) && InBudget(s) && Handles(s, Rec(rec), t, evs) && s.InstFor(k).status == Ready && rec.body.BookDelta?
    ensures t.InstFor(k).status != Ready <==> rec.At() == k && Demotion(evs)
  {
    var u :| HandlesDelta(s, rec.At(), rec.AsDelta(), u, evs) && t == Note(u, rec.At(), evs);
    DeltaReports(s, rec.At(), rec.AsDelta(), u, evs);
  }

  lemma EndStops(s: Shard, rec: Record, t: Shard, evs: seq<Event>, k: Key)
    requires Core(s) && InBudget(s) && Handles(s, Rec(rec), t, evs) && s.InstFor(k).status == Ready && rec.body.SnapshotEnd?
    ensures t.InstFor(k).status != Ready <==> rec.At() == k && Demotion(evs)
  {
    var u :| HandlesEnd(s, rec.At(), rec.body.id, rec.body.anchor, u, evs) && t == Note(u, rec.At(), evs);
    EndReports(s, rec.At(), rec.body.id, rec.body.anchor, u, evs);
  }

  /** The only ways out of service: its book restarts or is forgotten, or a message of its
      own reports a gap or a malformed record. Nothing stops silently, and nothing that is
      reported goes on serving. No buffer overflow of another instrument ever does it. */
  lemma StopsServingExactly(s: Shard, m: Message, t: Shard, evs: seq<Event>, k: Key)
    requires Core(s) && InBudget(s) && Handles(s, m, t, evs) && s.InstFor(k).status == Ready
    ensures t.InstFor(k).status != Ready <==> Restarts(s, m, k) || (MovesBook(m, k) && Demotion(evs))
  {
    if m.Rec? && m.rec.body.BookDelta? {
      DeltaStops(s, m.rec, t, evs, k);
    } else if m.Rec? && m.rec.body.SnapshotEnd? {
      EndStops(s, m.rec, t, evs, k);
    } else {
      OthersServeOn(s, m, t, evs, k);
    }
  }

  lemma OthersServeOn(s: Shard, m: Message, t: Shard, evs: seq<Event>, k: Key)
    requires Handles(s, m, t, evs) && s.InstFor(k).status == Ready
    requires !(m.Rec? && (m.rec.body.BookDelta? || m.rec.body.SnapshotEnd?))
    ensures t.InstFor(k).status != Ready <==> Restarts(s, m, k)
  {
    if m.Rec? {
      PlainServesOn(s, m.rec, k);
    }
  }

  lemma PlainServesOn(s: Shard, rec: Record, k: Key)
    requires s.InstFor(k).status == Ready
    ensures Plain(s, rec.At(), rec.body).InstFor(k).status != Ready <==> Restarts(s, Rec(rec), k)
  {
  }

  // ---- what is kept ----

  /** `r` is what lies behind `anchor` in `buf`. */
  ghost predicate TailPast(buf: seq<Delta>, anchor: nat, r: seq<Delta>) {
    exists cut: nat :: CutAt(buf, anchor, r, cut)
  }

  predicate CutAt(buf: seq<Delta>, anchor: nat, r: seq<Delta>, cut: nat) {
    && cut <= |buf| && r == buf[cut..]
    && (forall i :: 0 <= i < cut ==> buf[i].mseq <= anchor) && (forall i :: cut <= i < |buf| ==> buf[i].mseq > anchor)
  }

  lemma {:induction false} NewerIsTail(buf: seq<Delta>, anchor: nat)
    requires Sorted(buf)
    ensures TailPast(buf, anchor, Newer(buf, anchor))
    decreases |buf|
  {
    if buf == [] {
      assert CutAt(buf, anchor, [], 0);
    } else if buf[0].mseq > anchor {
      NewerAll(buf, anchor);
      assert CutAt(buf, anchor, buf, 0);
    } else {
      NewerIsTail(buf[1..], anchor);
      var cut: nat :| CutAt(buf[1..], anchor, Newer(buf[1..], anchor), cut);
      CutFurther(buf, anchor, Newer(buf, anchor), cut);
    }
  }

  lemma CutFurther(buf: seq<Delta>, anchor: nat, r: seq<Delta>, cut: nat)
    requires buf != [] && buf[0].mseq <= anchor && CutAt(buf[1..], anchor, r, cut)
    ensures CutAt(buf, anchor, r, cut + 1)
  {
    assert forall i :: 1 <= i < |buf| ==> buf[i] == buf[1..][i - 1];
  }

  /** A reset starts its instrument afresh, held to the new anchor, and keeps exactly the
      deltas behind that anchor, in order; nothing of any other instrument changes. */
  lemma ResetKeepsTheTail(s: Shard, rec: Record, t: Shard, evs: seq<Event>)
    requires Core(s) && rec.body.ResetBook? && Handles(s, Rec(rec), t, evs)
    ensures evs == [InstrumentReset(rec.body.newAnchor)]
    ensures var k, i := rec.At(), t.InstFor(rec.At());
            && i.status == AwaitingSnapshot && i.book == Book(map[], map[]) && i.shadow.None? && i.requiredSeq.None?
            && i.pending == map[] && i.lost == {} && i.requiredAnchor == Some(rec.body.newAnchor)
            && TailPast(s.Buf(k), rec.body.newAnchor, t.Buf(k)) && k !in t.crossed && k !in t.touched
            && t.bufferedN == s.bufferedN - (|s.Buf(k)| - |t.Buf(k)|)
            && (forall j :: j != k ==> t.InstFor(j) == s.InstFor(j) && t.Buf(j) == s.Buf(j) &&
                                       (j in t.crossed <==> j in s.crossed) && (j in t.touched <==> j in s.touched))
  {
    BufferSorted(s, rec.At());
    NewerIsTail(s.Buf(rec.At()), rec.body.newAnchor);
  }

  /** Overflow gives up a largest buffer as a whole. Its instrument then waits for a
      snapshot that covers every delta given up, the one after its tracker, and whatever
      it was held to before, and no more than that. */
  lemma EvictionFloorExactly(s: Shard, v: Key)
    requires IsLargest(s.bufs, v)
    ensures v in Evict(s, v).insts && Evict(s, v).insts[v].requiredSeq.Some?
    ensures var was, now := s.InstFor(v), Evict(s, v).insts[v];
            var floor := now.requiredSeq.value;
            && floor >= was.lastSeq + 1 && (forall d :: d in s.bufs[v] ==> floor >= d.piSeq)
            && (was.requiredSeq.Some? ==> floor >= was.requiredSeq.value)
            && (floor == was.lastSeq + 1 || was.requiredSeq == Some(floor) || exists d :: d in s.bufs[v] && d.piSeq == floor)
            && now == was.(status := Gap, pending := map[], requiredSeq := now.requiredSeq)
    ensures var t := Evict(s, v);
            && v !in t.bufs && t.bufferedN == s.bufferedN - |s.bufs[v]|
            && forall j :: j != v ==> t.InstFor(j) == s.InstFor(j) && t.Buf(j) == s.Buf(j)
  {
    var i, buf := s.InstFor(v), s.bufs[v];
    var n := Highest(i.lastSeq + 1, Seqs(buf));
    assert IsHighest(i.lastSeq + 1, Seqs(buf), n);
    forall d | d in buf ensures d.piSeq <= n {
      assert d.piSeq in Seqs(buf);
    }
  }

  /** A buffer's length once a delta of `k` is in. */
  function Lengthened(s: Shard, k: Key, j: Key): nat {
    |s.Buf(j)| + if j == k then 1 else 0
  }

  ghost predicate Inserted(buf: seq<Delta>, d: Delta, r: seq<Delta>) {
    exists p: nat :: IsSlot(buf, d, p) && r == buf[..p] + [d] + buf[p..]
  }

  /** The buffer of `v`, no shorter than any other, goes as a whole, and only that. */
  ghost predicate GaveUp(s: Shard, k: Key, d: Delta, v: Key, t: Shard) {
    && (forall j :: Lengthened(s, k, j) <= Lengthened(s, k, v))
    && v !in t.bufs && v in t.insts && t.insts[v].status == Gap
    && t.bufferedN == s.bufferedN + 1 - Lengthened(s, k, v)
    && (forall j :: j != v ==> t.InstFor(j) == s.InstFor(j))
    && (forall j :: j != v && j != k ==> t.Buf(j) == s.Buf(j))
    && (k != v ==> Inserted(s.Buf(k), d, t.Buf(k)))
  }

  /** Buffering a delta inserts it behind every one not later. Only when the shard's budget
      is spent does anything go: a longest buffer, the new delta counted. */
  lemma BufferingExactly(s: Shard, k: Key, d: Delta, t: Shard)
    requires Core(s) && Buffers(s, k, d, t)
    ensures if s.bufferedN < s.maxBuffered
            then Inserted(s.Buf(k), d, t.Buf(k)) && t.insts == s.insts && t.bufferedN == s.bufferedN + 1 &&
                 forall j :: j != k ==> t.Buf(j) == s.Buf(j)
            else exists v :: GaveUp(s, k, d, v, t)
  {
    var u := Appended(s, k, d);
    AppendedInserts(s, k, d);
    if u.bufferedN > u.maxBuffered {
      var v :| IsLargest(u.bufs, v) && t == Evict(u, v);
      LargestGoes(s, k, d, v);
    }
  }

  lemma LargestGoes(s: Shard, k: Key, d: Delta, v: Key)
    requires Core(s) && IsLargest(Appended(s, k, d).bufs, v)
    ensures GaveUp(s, k, d, v, Evict(Appended(s, k, d), v))
  {
    var u := Appended(s, k, d);
    AppendedInserts(s, k, d);
    forall j ensures Lengthened(s, k, j) == |u.Buf(j)| <= |u.bufs[v]| {
    }
  }

  lemma AppendedInserts(s: Shard, k: Key, d: Delta)
    requires Core(s)
    ensures var u := Appended(s, k, d);
            Inserted(s.Buf(k), d, u.Buf(k)) && |u.Buf(k)| == |s.Buf(k)| + 1
  {
    BufferSorted(s, k);
    var p := SlotExists(s.Buf(k), d);
    InsertIsSplice(s.Buf(k), d, p);
  }

  /** A malformed delta behind the tracker is ignored. One ahead takes its instrument out of
      service, is the one seq known lost and the floor, and the whole window goes to the
      buffer, each entry once. */
  lemma MalformedExactly(i: Inst, d: Delta, held: seq<Delta>)
    requires InstOk(i) && i.status == Ready && Malformed(d.change) && Choice(i, d, held)
    ensures var o := Classify(i, d, held);
            if d.piSeq <= i.lastSeq then o == Outcome(i, [], [])
            else
              && o.inst == i.(status := Gap, pending := map[], lost := {d.piSeq}, requiredSeq := Some(d.piSeq))
              && o.events == [MalformedDelta(d)]
              && (forall x :: x in o.spill <==> x.piSeq in i.pending && i.pending[x.piSeq] == x)
              && (forall j, l :: 0 <= j < l < |o.spill| ==> o.spill[j] != o.spill[l])
  {
    ReadyExpectsNext(i);
    if d.piSeq > i.lastSeq {
      forall x | x in held ensures x.piSeq in i.pending && i.pending[x.piSeq] == x {
        var j :| 0 <= j < |held| && held[j] == x;
      }
      forall x: Delta | x.piSeq in i.pending && i.pending[x.piSeq] == x ensures x in held {
      }
    }
  }

  // ---- a commit on a serving instrument ----

  /** A serving instrument commits a group it took for a newer one, and meanwhile its
      deltas have gone past that group: book and tracker step back to the snapshot, and
      the delta after the old tracker, when it comes, waits for ones already spent. It
      steps back exactly when the tracker passed the group's Last Instrument Seq. */
  lemma CommitStepsBack(s: Shard, k: Key, h: GroupHeader, book: Book, t: Shard, evs: seq<Event>)
    requires Core(s) && InBudget(s) && k in s.insts && s.insts[k].status == Ready
    requires s.insts[k].shadow == Some(Shadow(h, h.total, book))
    requires HandlesEnd(s, k, h.id, h.anchor, t, evs)
    ensures k in t.insts && t.insts[k].status == Ready && t.insts[k].book == book && t.insts[k].lastSeq == h.last
    ensures t.insts[k].lastSeq < s.insts[k].lastSeq <==> s.insts[k].lastSeq > h.last
    ensures s.insts[k].lastSeq > h.last ==>
              forall d: Delta, held: seq<Delta> :: d.piSeq == s.insts[k].lastSeq + 1 && !Malformed(d.change) ==>
                Classify(t.insts[k], d, held).inst.book == book && !ChangesBook(Classify(t.insts[k], d, held).events)
  {
    assert KeyOk(s, k);
    SnapshotEndBootstraps(s, k, h, book, [], [], t, evs);
  }

  // ---- the anchor a reset holds its instrument to ----

  predicate ResetAt(m: Message, k: Key) {
    m.Rec? && m.rec.At() == k && m.rec.body.ResetBook?
  }

  predicate CommittedAt(m: Message, evs: seq<Event>, k: Key) {
    m.Rec? && m.rec.At() == k && m.rec.body.SnapshotEnd? && evs != []
  }

  /** A commit releases the instrument, and so does forgetting it. */
  predicate Releases(s: Shard, m: Message, evs: seq<Event>, k: Key) {
    CommittedAt(m, evs, k) || (!m.Rec? && Restarts(s, m, k))
  }

  lemma ClassifyAnchor(i: Inst, d: Delta, held: seq<Delta>)
    requires InstOk(i) && i.status == Ready
    ensures Classify(i, d, held).inst.requiredAnchor.None?
  {
    ReadyExpectsNext(i);
    if d.piSeq == i.lastSeq + 1 && !Malformed(d.change) {
      ContiguousOk(i, d, held);
    }
  }

  lemma {:induction false} ReplayAnchor(i: Inst, buf: seq<Delta>, held: seq<Delta>)
    requires InstOk(i) && i.requiredAnchor.None?
    ensures Replay(i, buf, held).inst.requiredAnchor.None?
    decreases |buf|
  {
    if buf != [] {
      if buf[0].mseq <= i.lastMkt || i.status != Ready {
        ReplayAnchor(i, buf[1..], held);
      } else {
        ClassifyAnchor(i, buf[0], held);
        ClassifyOk(i, buf[0], held);
        ReplayAnchor(Classify(i, buf[0], held).inst, buf[1..], held);
      }
    }
  }

  lemma AgedAnchor(u: Shard, t: Shard, j: Key)
    requires OnlyAged(u, t)
    ensures t.InstFor(j).requiredAnchor == u.InstFor(j).requiredAnchor
  {
    if j in t.insts {
      assert Aged(u.InstFor(j), t.insts[j]);
    }
  }

  lemma DeltaAnchor(s: Shard, k: Key, d: Delta, t: Shard, evs: seq<Event>, j: Key)
    requires Core(s) && InBudget(s) && HandlesDelta(s, k, d, t, evs)
    ensures t.InstFor(j).requiredAnchor == s.InstFor(j).requiredAnchor
  {
    var u, held, spill := DeltaSteps(s, k, d, t, evs);
    BuffersAllOk(u, k, spill, t);
    AgedAnchor(u, t, j);
    if k in s.insts && s.insts[k].status == Ready {
      assert KeyOk(s, k);
      ClassifyAnchor(s.insts[k], d, held);
    }
  }

  lemma EndAnchor(s: Shard, k: Key, id: nat, anchor: nat, t: Shard, evs: seq<Event>, j: Key)
    requires Core(s) && InBudget(s) && HandlesEnd(s, k, id, anchor, t, evs)
    ensures t.InstFor(j).requiredAnchor == if j == k && evs != [] then None else s.InstFor(j).requiredAnchor
  {
    if k in s.insts && Commits(s.insts[k], id, anchor) {
      var u, held, o := CommitSteps(s, k, id, anchor, t, evs);
      CommittedAnchor(s, k, id, anchor, o, held);
      BuffersAllOk(u, k, o.spill, t);
      TakePutSame(s, k, o.inst);
      AgedAnchor(u, t, j);
    } else {
      DropShadowSame(s, k, id, anchor, t, evs);
    }
  }

  lemma CommittedAnchor(s: Shard, k: Key, id: nat, anchor: nat, o: Outcome, held: seq<Delta>)
    requires Core(s) && k in s.insts && Commits(s.insts[k], id, anchor)
    requires o == Replay(Commit(s.insts[k]), s.Buf(k), held)
    ensures o.inst.requiredAnchor.None?
  {
    assert KeyOk(s, k);
    EndOk(s.insts[k], id, anchor);
    ReplayAnchor(Commit(s.insts[k]), s.Buf(k), held);
  }

  lemma DeltaKeepsAnchor(s: Shard, rec: Record, t: Shard, evs: seq<Event>, k: Key)
    requires Core(s) && InBudget(s) && Handles(s, Rec(rec), t, evs) && rec.body.BookDelta?
    ensures t.InstFor(k).requiredAnchor == s.InstFor(k).requiredAnchor
  {
    var u :| HandlesDelta(s, rec.At(), rec.AsDelta(), u, evs) && t == Note(u, rec.At(), evs);
    DeltaAnchor(s, rec.At(), rec.AsDelta(), u, evs, k);
  }

  lemma EndMovesAnchor(s: Shard, rec: Record, t: Shard, evs: seq<Event>, k: Key)
    requires Core(s) && InBudget(s) && Handles(s, Rec(rec), t, evs) && rec.body.SnapshotEnd?
    ensures t.InstFor(k).requiredAnchor == if k == rec.At() && evs != [] then None else s.InstFor(k).requiredAnchor
  {
    var u :| HandlesEnd(s, rec.At(), rec.body.id, rec.body.anchor, u, evs) && t == Note(u, rec.At(), evs);
    EndAnchor(s, rec.At(), rec.body.id, rec.body.anchor, u, evs, k);
  }

  lemma AnchorStep(s: Shard, m: Message, t: Shard, evs: seq<Event>, k: Key)
    requires Core(s) && InBudget(s) && Handles(s, m, t, evs)
    ensures t.InstFor(k).requiredAnchor ==
            if ResetAt(m, k) then Some(m.rec.body.newAnchor)
            else if Releases(s, m, evs, k) then None else s.InstFor(k).requiredAnchor
  {
    if m.Rec? && m.rec.body.BookDelta? {
      DeltaKeepsAnchor(s, m.rec, t, evs, k);
    } else if m.Rec? && m.rec.body.SnapshotEnd? {
      EndMovesAnchor(s, m.rec, t, evs, k);
    } else {
      OthersAnchor(s, m, t, evs, k);
    }
  }

  lemma OthersAnchor(s: Shard, m: Message, t: Shard, evs: seq<Event>, k: Key)
    requires Handles(s, m, t, evs) && !(m.Rec? && (m.rec.body.BookDelta? || m.rec.body.SnapshotEnd?))
    ensures t.InstFor(k).requiredAnchor ==
            if ResetAt(m, k) then Some(m.rec.body.newAnchor)
            else if Releases(s, m, evs, k) then None else s.InstFor(k).requiredAnchor
  {
    if m.Rec? {
      PlainAnchor(s, m.rec, k);
    }
  }

  lemma PutAnchor(s: Shard, own: Key, i: Inst, k: Key)
    requires i.requiredAnchor == s.InstFor(own).requiredAnchor
    ensures s.Put(own, i).InstFor(k).requiredAnchor == s.InstFor(k).requiredAnchor
  {
  }

  lemma PlainAnchor(s: Shard, rec: Record, k: Key)
    ensures Plain(s, rec.At(), rec.body).InstFor(k).requiredAnchor ==
            if ResetAt(Rec(rec), k) then Some(rec.body.newAnchor) else s.InstFor(k).requiredAnchor
  {
    var own := rec.At();
    match rec.body
    case SnapshotBegin(h) => PutAnchor(s, own, Begin(s.InstFor(own), h), k);
    case SnapshotLevel(id, level) =>
      if own in s.insts {
        PutAnchor(s, own, InstrumentSpec.Level(s.insts[own], id, level), k);
      }
    case _ =>
  }

  /** Message `j` reset the instrument, and no later one before `n` reset it again or
      released it. */
  predicate HeldTo(states: seq<Shard>, inbox: seq<Message>, events: seq<seq<Event>>, j: nat, n: nat, k: Key)
    requires |states| == |inbox| + 1 && |events| == |inbox|
  {
    && j < n <= |inbox| && ResetAt(inbox[j], k)
    && forall i :: j < i < n ==> !ResetAt(inbox[i], k) && !Releases(states[i], inbox[i], events[i], k)
  }

  /** Over any run: an instrument is held to an anchor exactly while a reset of it has not
      been followed by a commit, a wipe or a prune, and then to the last reset's. */
  lemma {:induction false} HeldToTheLastReset(states: seq<Shard>, inbox: seq<Message>, events: seq<seq<Event>>, budget: nat,
                                              n: nat, k: Key)
    requires IsRun(states, inbox, events, budget) && n <= |inbox|
    ensures states[n].InstFor(k).requiredAnchor.Some? <==> exists j: nat :: HeldTo(states, inbox, events, j, n, k)
    ensures forall j: nat :: HeldTo(states, inbox, events, j, n, k) ==>
              states[n].InstFor(k).requiredAnchor == Some(inbox[j].rec.body.newAnchor)
  {
    if n > 0 {
      HeldToTheLastReset(states, inbox, events, budget, n - 1, k);
      EveryRun(states, inbox, events, budget, n - 1);
      assert HandlesAt(states, inbox, events, n - 1);
      AnchorStep(states[n - 1], inbox[n - 1], states[n], events[n - 1], k);
      var still := !ResetAt(inbox[n - 1], k) && !Releases(states[n - 1], inbox[n - 1], events[n - 1], k);
      assert HeldTo(states, inbox, events, n - 1, n, k) <==> ResetAt(inbox[n - 1], k);
      forall j: nat | j < n - 1
        ensures HeldTo(states, inbox, events, j, n, k) <==> (HeldTo(states, inbox, events, j, n - 1, k) && still)
      {
      }
      if states[n].InstFor(k).requiredAnchor.Some? && !ResetAt(inbox[n - 1], k) {
        var j: nat :| HeldTo(states, inbox, events, j, n - 1, k);
        assert HeldTo(states, inbox, events, j, n, k);
      }
    }
  }

  /** Which groups an instrument takes: none below the anchor or the seq it is held to,
      and while it serves only one ahead of its tracker. A group taken starts empty in
      place of any other; one declined changes nothing. */
  lemma GroupTakenExactly(s: Shard, rec: Record, t: Shard, evs: seq<Event>)
    requires rec.body.SnapshotBegin? && Handles(s, Rec(rec), t, evs)
    ensures var i, h := s.InstFor(rec.At()), rec.body.header;
            && rec.At() in t.insts
            && t.insts[rec.At()] ==
               (if (i.requiredAnchor.Some? && h.anchor < i.requiredAnchor.value)
                   || (i.requiredSeq.Some? && h.last < i.requiredSeq.value)
                   || (i.status == Ready && h.last <= i.lastSeq)
                then i else i.(shadow := Some(Shadow(h, 0, Book(map[], map[])))))
            && (forall j :: j != rec.At() ==> t.InstFor(j) == s.InstFor(j)) && t.bufs == s.bufs
  {
  }

  // ---- what is announced ----

  predicate IsNotice(e: Event) {
    e.InstrumentReset? || e.InstrumentDefinition? || e.BatchBoundary? || e.Trade?
  }

  function Notices(evs: seq<Event>): seq<Event> {
    if evs == [] then []
    else Notices(evs[..|evs| - 1]) + if IsNotice(evs[|evs| - 1]) then [evs[|evs| - 1]] else []
  }

  lemma {:induction false} NoNotices(evs: seq<Event>)
    requires forall e :: e in evs ==> !IsNotice(e)
    ensures Notices(evs) == []
  {
    if evs != [] {
      assert evs[|evs| - 1] in evs;
      NoNotices(evs[..|evs| - 1]);
    }
  }

  lemma ClassifyNotices(i: Inst, d: Delta, held: seq<Delta>)
    ensures forall e :: e in Classify(i, d, held).events ==> !IsNotice(e)
  {
  }

  lemma {:induction false} ReplayNotices(i: Inst, buf: seq<Delta>, held: seq<Delta>)
    ensures forall e :: e in Replay(i, buf, held).events ==> !IsNotice(e)
    decreases |buf|
  {
    if buf != [] {
      if buf[0].mseq <= i.lastMkt || i.status != Ready {
        ReplayNotices(i, buf[1..], held);
      } else {
        ClassifyNotices(i, buf[0], held);
        ReplayNotices(Classify(i, buf[0], held).inst, buf[1..], held);
      }
    }
  }

  /** Each trade, definition, reset and boundary is announced once, whatever the state, and
      nothing else announces one. */
  lemma AnnouncedOnce(s: Shard, m: Message, t: Shard, evs: seq<Event>)
    requires Core(s) && InBudget(s) && Handles(s, m, t, evs)
    ensures Notices(evs) ==
            if !m.Rec? then []
            else match m.rec.body
              case TradePrint => [Trade]
              case Definition(_, _) => [InstrumentDefinition]
              case ResetBook(anchor) => [InstrumentReset(anchor)]
              case Boundary => [BatchBoundary]
              case _ => []
  {
    if m.Rec? && (m.rec.body.BookDelta? || m.rec.body.SnapshotEnd?) {
      BooksAnnounceNothing(s, m.rec, t, evs);
      NoNotices(evs);
    } else if evs != [] {
      assert evs[..0] == [];
      assert Notices(evs[..0]) == [];
    }
  }

  lemma BooksAnnounceNothing(s: Shard, rec: Record, t: Shard, evs: seq<Event>)
    requires Core(s) && InBudget(s) && Handles(s, Rec(rec), t, evs) && (rec.body.BookDelta? || rec.body.SnapshotEnd?)
    ensures forall e :: e in evs ==> !IsNotice(e)
  {
    var k := rec.At();
    if rec.body.BookDelta? {
      var u :| HandlesDelta(s, k, rec.AsDelta(), u, evs) && t == Note(u, k, evs);
      var v, held, spill := DeltaSteps(s, k, rec.AsDelta(), u, evs);
      if evs != [] {
        ClassifyNotices(s.insts[k], rec.AsDelta(), held);
      }
    } else {
      var u :| HandlesEnd(s, k, rec.body.id, rec.body.anchor, u, evs) && t == Note(u, k, evs);
      if evs != [] {
        var v, held, o := CommitSteps(s, k, rec.body.id, rec.body.anchor, u, evs);
        ReplayNotices(Commit(s.insts[k]), s.Buf(k), held);
      }
    }
  }
}
