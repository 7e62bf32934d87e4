/** What every inbox message keeps, whatever the records say: the status invariant
    of each instrument, the buffer's accounting and order, and the crossed index. */
module ShardInvariant {
  import opened Book
  import opened InstrumentSpec
  import opened ShardSpec
  import opened ChannelMaps

  // ---- one instrument ----

  /** Entries of the reorder window sit under their own seq, are well formed, and
      lie at or ahead of the expected seq, at most the window's width. */
  predicate Windowed(i: Inst) {
    forall s :: s in i.pending ==>
      i.pending[s].piSeq == s && !Malformed(i.pending[s].change) &&
      i.lastSeq < s <= i.lastSeq + 1 + REORDER_WINDOW
  }

  predicate InstOk(i: Inst) {
    && Windowed(i)
    && (i.status == Ready ==>
          i.lost == {} && i.requiredAnchor.None? && i.requiredSeq.None? && i.depthBound.Some? &&
          i.lastSeq + 1 !in i.pending)
    && (i.status != Ready ==> i.pending == map[])
    && (i.shadow.Some? && i.requiredAnchor.Some? ==>
          i.shadow.value.header.anchor >= i.requiredAnchor.value)
    && (forall x :: x in i.lost ==> i.requiredSeq.Some? && x <= i.requiredSeq.value)
  }

  /** A ready instrument waits for exactly the seq after its tracker. */
  lemma ReadyExpectsNext(i: Inst)
    requires InstOk(i) && i.status == Ready
    ensures NextExpected(i) == i.lastSeq + 1
  {
  }

  /** One step of the drain, for an instrument with nothing lost. */
  lemma DrainStepOk(i: Inst)
    requires Windowed(i) && i.lost == {} && i.lastSeq + 1 in i.pending
    ensures NextExpected(i) == i.lastSeq + 1
    ensures var j := DrainStep(i);
            && Windowed(j) && j.lost == {} && j.lastSeq == i.lastSeq + 1
            && j == i.(book := Apply(i.book, i.pending[i.lastSeq + 1].change),
                       lastMkt := i.pending[i.lastSeq + 1].mseq, lastSeq := i.lastSeq + 1,
                       pending := i.pending - {i.lastSeq + 1})
  {
    assert PruneLost({}, i.lastSeq + 1) == {};
  }

  /** `w` is what remains of the window `v` above `n`. */
  ghost predicate Rest(w: map<nat, Delta>, v: map<nat, Delta>, n: nat) {
    && (forall s :: s in w ==> s in v && w[s] == v[s] && s > n)
    && (forall s :: s in v && s > n ==> s in w)
  }

  /** What draining the window touches, and what it leaves of it. */
  ghost predicate DrainedTo(i: Inst, j: Inst) {
    && Windowed(j) && j.lost == {}
    && j == i.(book := j.book, lastMkt := j.lastMkt, lastSeq := j.lastSeq, pending := j.pending)
    && j.lastSeq >= i.lastSeq && Rest(j.pending, i.pending, j.lastSeq)
    && (forall s :: i.lastSeq < s <= j.lastSeq ==> s in i.pending)
  }

  lemma DrainedStep(i: Inst, m: Inst, j: Inst)
    requires Windowed(i) && i.lost == {} && i.lastSeq + 1 in i.pending
    requires m.lastSeq == i.lastSeq + 1 && m.pending == i.pending - {i.lastSeq + 1}
    requires m == i.(book := m.book, lastMkt := m.lastMkt, lastSeq := m.lastSeq, pending := m.pending)
    requires DrainedTo(m, j)
    ensures DrainedTo(i, j)
  {
    assert forall s :: s in m.pending ==> s in i.pending && m.pending[s] == i.pending[s];
    forall s | i.lastSeq < s <= j.lastSeq ensures s in i.pending {
      if s != i.lastSeq + 1 {
        assert s in m.pending;
      }
    }
  }

  /** Draining stops exactly where nothing contiguous is left. */
  lemma {:induction false} DrainOk(i: Inst)
    requires Windowed(i) && i.lost == {}
    ensures DrainedTo(i, Drain(i)) && Drain(i).lastSeq + 1 !in Drain(i).pending
    decreases i.pending.Keys
  {
    if i.lastSeq + 1 in i.pending {
      DrainStepOk(i);
      var m := DrainStep(i);
      DrainOk(m);
      DrainedStep(i, m, Drain(m));
    }
  }

  /** The reorder window holds at most REORDER_WINDOW keys: the count test of the
      source never fires unless the distance test does. */
  lemma WindowCount(i: Inst, w: map<nat, Delta>)
    requires forall s :: s in w ==> i.lastSeq + 1 < s <= i.lastSeq + 1 + REORDER_WINDOW
    ensures |w| <= REORDER_WINDOW
  {
    SpanSize(i.lastSeq + 2, REORDER_WINDOW);
    SubsetSize(w.Keys, Span(i.lastSeq + 2, REORDER_WINDOW));
  }

  function Span(lo: nat, n: nat): (r: set<nat>)
    ensures forall s :: s in r <==> lo <= s < lo + n
  {
    if n == 0 then {} else Span(lo, n - 1) + {lo + n - 1}
  }

  lemma {:induction false} SpanSize(lo: nat, n: nat)
    ensures |Span(lo, n)| == n
  {
    if n > 0 {
      SpanSize(lo, n - 1);
    }
  }

  lemma AppliedWindowed(i: Inst, d: Delta)
    requires InstOk(i) && i.status == Ready && d.piSeq == i.lastSeq + 1
    ensures Windowed(ApplyOne(i, d)) && ApplyOne(i, d).lost == {} && NextExpected(i) == d.piSeq
  {
    ReadyExpectsNext(i);
    assert PruneLost({}, d.piSeq) == {};
  }

  lemma DrainedOk(i: Inst, j: Inst)
    requires DrainedTo(i, j) && j.lastSeq + 1 !in j.pending && i.status == Ready
    requires i.requiredAnchor.None? && i.requiredSeq.None? && i.depthBound.Some?
    ensures InstOk(j)
  {
  }

  lemma AppliedChanges(ds: seq<Delta>)
    requires ds != []
    ensures ChangesBook(Applied(ds))
  {
    var evs := Applied(ds);
    assert evs[0] == AppliedDelta(ds[0]) && evs[0] in evs;
  }

  /** The contiguous branch: apply, then drain. */
  lemma ContiguousOk(i: Inst, d: Delta, held: seq<Delta>)
    requires InstOk(i) && i.status == Ready && d.piSeq == i.lastSeq + 1 && !Malformed(d.change)
    ensures Classify(i, d, held)
         == Outcome(Drain(ApplyOne(i, d)), [], Applied([d] + DrainRun(ApplyOne(i, d))))
    ensures var j := Classify(i, d, held).inst;
            Windowed(ApplyOne(i, d)) && DrainedTo(ApplyOne(i, d), j) && j.lastSeq + 1 !in j.pending && InstOk(j)
    ensures ChangesBook(Classify(i, d, held).events)
  {
    AppliedWindowed(i, d);
    var j := ApplyOne(i, d);
    DrainOk(j);
    DrainedOk(j, Drain(j));
    AppliedChanges([d] + DrainRun(j));
  }

  /** Classification keeps the instrument invariant, buffers only for an instrument
      it has just demoted, and changes the book only when it reports so. */
  lemma ClassifyOk(i: Inst, d: Delta, held: seq<Delta>)
    requires InstOk(i) && i.status == Ready
    ensures var o := Classify(i, d, held);
            && InstOk(o.inst)
            && (o.spill != [] ==> o.inst.status != Ready)
            && (o.inst.book != i.book ==> ChangesBook(o.events))
            && o.inst.shadow == i.shadow && o.inst.depthBound == i.depthBound
  {
    ReadyExpectsNext(i);
    if d.piSeq == i.lastSeq + 1 && !Malformed(d.change) {
      ContiguousOk(i, d, held);
    }
  }

  lemma {:induction false} ReplayOk(i: Inst, buf: seq<Delta>, held: seq<Delta>)
    requires InstOk(i)
    ensures var o := Replay(i, buf, held);
            && InstOk(o.inst)
            && (o.spill != [] ==> o.inst.status != Ready)
            && (i.status != Ready ==> o.inst == i)
    decreases |buf|
  {
    if buf != [] {
      if buf[0].mseq <= i.lastMkt || i.status != Ready {
        ReplayOk(i, buf[1..], held);
      } else {
        ClassifyOk(i, buf[0], held);
        ReplayOk(Classify(i, buf[0], held).inst, buf[1..], held);
      }
    }
  }

  lemma {:induction false} ReplayShadow(i: Inst, buf: seq<Delta>, held: seq<Delta>)
    requires InstOk(i)
    ensures Replay(i, buf, held).inst.shadow == i.shadow
    decreases |buf|
  {
    if buf != [] {
      if buf[0].mseq <= i.lastMkt || i.status != Ready {
        ReplayShadow(i, buf[1..], held);
      } else {
        ClassifyOk(i, buf[0], held);
        ReplayShadow(Classify(i, buf[0], held).inst, buf[1..], held);
      }
    }
  }

  lemma BeginOk(i: Inst, h: GroupHeader)
    requires InstOk(i)
    ensures InstOk(Begin(i, h))
  {
  }

  lemma EndOk(i: Inst, id: nat, anchor: nat)
    requires InstOk(i)
    ensures InstOk(End(i, id, anchor))
  {
    if Commits(i, id, anchor) {
      assert PruneLost(i.lost, i.shadow.value.header.last) == {};
    }
  }

  lemma EvictedOk(i: Inst, buf: seq<Delta>)
    requires InstOk(i)
    ensures InstOk(Evicted(i, buf))
  {
  }

  // ---- the buffer: order and accounting ----

  predicate Sorted(buf: seq<Delta>) {
    forall j, k :: 0 <= j < k < |buf| ==> buf[j].mseq <= buf[k].mseq
  }

  /** `p` splits `buf` into the entries not after `d` and those after it. */
  predicate IsSlot(buf: seq<Delta>, d: Delta, p: nat) {
    && p <= |buf|
    && (forall j :: 0 <= j < p ==> buf[j].mseq <= d.mseq)
    && (forall j :: p <= j < |buf| ==> buf[j].mseq > d.mseq)
  }

  /** Splicing at the slot, however it was found, is stable insertion. */
  lemma {:induction false} InsertIsSplice(buf: seq<Delta>, d: Delta, p: nat)
    requires IsSlot(buf, d, p)
    ensures Insert(buf, d) == buf[..p] + [d] + buf[p..]
  {
    if p < |buf| {
      var init := buf[..|buf| - 1];
      InsertIsSplice(init, d, p);
      assert init[..p] == buf[..p];
      assert buf[p..] == init[p..] + [buf[|buf| - 1]];
    } else {
      assert buf[..p] == buf && buf[p..] == [];
    }
  }

  lemma {:induction false} SlotExists(buf: seq<Delta>, d: Delta) returns (p: nat)
    requires Sorted(buf)
    ensures IsSlot(buf, d, p)
  {
    p := |buf|;
    while p > 0 && buf[p - 1].mseq > d.mseq
      invariant p <= |buf| && forall j :: p <= j < |buf| ==> buf[j].mseq > d.mseq
    {
      p := p - 1;
    }
  }

  lemma SplicedMembers(buf: seq<Delta>, d: Delta, p: nat)
    requires p <= |buf|
    ensures var r := buf[..p] + [d] + buf[p..];
            d in r && (forall x :: x in buf ==> x in r) && forall x :: x in r ==> x == d || x in buf
  {
    var r := buf[..p] + [d] + buf[p..];
    assert r[p] == d;
    forall j | 0 <= j < |buf| ensures buf[j] in r {
      assert buf[j] == if j < p then r[j] else r[j + 1];
    }
  }

  lemma InsertOk(buf: seq<Delta>, d: Delta)
    requires Sorted(buf)
    ensures Sorted(Insert(buf, d)) && |Insert(buf, d)| == |buf| + 1
    ensures forall x :: x in Insert(buf, d) ==> x == d || x in buf
    ensures d in Insert(buf, d) && forall x :: x in buf ==> x in Insert(buf, d)
  {
    var p := SlotExists(buf, d);
    InsertIsSplice(buf, d, p);
    SplicedMembers(buf, d, p);
  }

  lemma {:induction false} TotalRemove(m: map<Key, seq<Delta>>, k: Key)
    requires k in m
    ensures Total(m) == |m[k]| + Total(m - {k})
    decreases m.Keys
  {
    var x :| x in m && Total(m) == |m[x]| + Total(m - {x});
    if x != k {
      TotalRemove(m - {x}, k);
      TotalRemove(m - {k}, x);
      assert m - {x} - {k} == m - {k} - {x};
    }
  }

  lemma TotalUpdate(m: map<Key, seq<Delta>>, k: Key, v: seq<Delta>)
    ensures Total(m[k := v]) == |v| + Total(m - {k})
  {
    TotalRemove(m[k := v], k);
    assert m[k := v] - {k} == m - {k};
  }

  lemma {:induction false} TotalSplit(m: map<Key, seq<Delta>>, ks: set<Key>)
    ensures Total(m) == Total(m - ks) + Total(map k | k in m && k in ks :: m[k])
    decreases m.Keys
  {
    if k :| k in m && k in ks {
      var r := map k | k in m && k in ks :: m[k];
      TotalRemove(m, k);
      TotalRemove(r, k);
      TotalSplit(m - {k}, ks);
      assert m - {k} - ks == m - ks;
      assert (map j | j in m - {k} && j in ks :: (m - {k})[j]) == r - {k};
    } else {
      assert m - ks == m;
      assert (map k | k in m && k in ks :: m[k]) == map[];
    }
  }

  // ---- the shard ----

  ghost predicate KeyOk(s: Shard, k: Key) {
    && (k in s.insts ==> InstOk(s.insts[k]))
    && (k in s.bufs ==> s.bufs[k] != [] && Sorted(s.bufs[k]))
    && (k in s.bufs && k in s.insts ==> s.insts[k].status != Ready)
  }

  /** Every instrument meets its invariant, no ready instrument has buffered
      deltas, buffers are sorted, and the running total is exact. */
  ghost predicate Core(s: Shard) {
    && (forall k :: KeyOk(s, k))
    && s.bufferedN == Total(s.bufs)
  }

  ghost predicate InBudget(s: Shard) {
    s.bufferedN <= s.maxBuffered
  }

  /** What buffering for `k` may do to an instrument: nothing, or the demotion an
      eviction is, which never meets a ready one. */
  ghost predicate Aged(i: Inst, j: Inst) {
    || j == i
    || (&& i.status != Ready
        && j == i.(status := Gap, pending := map[], requiredSeq := j.requiredSeq)
        && j.requiredSeq.Some?
        && (i.requiredSeq.Some? ==> j.requiredSeq.value >= i.requiredSeq.value))
  }

  /** Everything but buffers and evicted instruments is as it was. */
  ghost predicate OnlyAged(s: Shard, s': Shard) {
    && s.insts.Keys <= s'.insts.Keys
    && (forall k :: k in s'.insts ==> Aged(s.InstFor(k), s'.insts[k]))
    && s' == s.(insts := s'.insts, bufs := s'.bufs, bufferedN := s'.bufferedN)
  }

  lemma AgedTransitive(s: Shard, t: Shard, u: Shard)
    requires OnlyAged(s, t) && OnlyAged(t, u)
    ensures OnlyAged(s, u)
  {
    forall k | k in u.insts ensures Aged(s.InstFor(k), u.insts[k]) {
      assert Aged(t.InstFor(k), u.insts[k]);
      if k in t.insts {
        assert Aged(s.InstFor(k), t.insts[k]);
      }
    }
  }

  lemma EvictOk(s: Shard, v: Key)
    requires Core(s) && v in s.bufs
    ensures Core(Evict(s, v)) && OnlyAged(s, Evict(s, v))
    ensures Evict(s, v).bufferedN < s.bufferedN
  {
    var t := Evict(s, v);
    assert KeyOk(s, v);
    EvictedOk(s.InstFor(v), s.bufs[v]);
    TotalRemove(s.bufs, v);
    forall k ensures KeyOk(t, k) {
      assert KeyOk(s, k);
    }
  }

  lemma AppendOk(s: Shard, k: Key, d: Delta)
    requires Core(s) && (k in s.insts ==> s.insts[k].status != Ready)
    ensures Core(Appended(s, k, d)) && OnlyAged(s, Appended(s, k, d))
  {
    var t := Appended(s, k, d);
    assert KeyOk(s, k);
    InsertOk(s.Buf(k), d);
    TotalUpdate(s.bufs, k, Insert(s.Buf(k), d));
    if k in s.bufs {
      TotalRemove(s.bufs, k);
    } else {
      assert s.bufs - {k} == s.bufs;
    }
    forall j ensures KeyOk(t, j) {
      assert KeyOk(s, j);
    }
  }

  lemma BuffersOk(s: Shard, k: Key, d: Delta, s': Shard)
    requires Core(s) && InBudget(s) && (k in s.insts ==> s.insts[k].status != Ready)
    requires Buffers(s, k, d, s')
    ensures Core(s') && InBudget(s') && OnlyAged(s, s')
    ensures k in s'.insts ==> s'.insts[k].status != Ready
  {
    AppendOk(s, k, d);
    var t := Appended(s, k, d);
    if t.bufferedN > t.maxBuffered {
      var v :| IsLargest(t.bufs, v) && s' == Evict(t, v);
      EvictOk(t, v);
      AgedTransitive(s, t, s');
    }
    assert k in s'.insts ==> Aged(s.InstFor(k), s'.insts[k]);
  }

  lemma {:induction false} BuffersAllOk(s: Shard, k: Key, ds: seq<Delta>, s': Shard)
    requires Core(s) && InBudget(s) && (ds != [] && k in s.insts ==> s.insts[k].status != Ready)
    requires BuffersAll(s, k, ds, s')
    ensures Core(s') && InBudget(s') && OnlyAged(s, s')
    decreases |ds|
  {
    if ds != [] {
      var m :| Buffers(s, k, ds[0], m) && BuffersAll(m, k, ds[1..], s');
      BuffersOk(s, k, ds[0], m);
      BuffersAllOk(m, k, ds[1..], s');
      AgedTransitive(s, m, s');
    }
  }

  // ---- every message ----

  lemma PutOk(s: Shard, k: Key, i: Inst)
    requires Core(s) && InstOk(i) && (i.status == Ready ==> k !in s.bufs)
    ensures Core(s.Put(k, i))
  {
    forall j ensures KeyOk(s.Put(k, i), j) {
      assert KeyOk(s, j);
    }
  }

  lemma BuffersOne(s: Shard, k: Key, d: Delta, s': Shard)
    requires Buffers(s, k, d, s')
    ensures BuffersAll(s, k, [d], s')
  {
    assert [d][0] == d && [d][1..] == [];
    assert Buffers(s, k, [d][0], s') && BuffersAll(s', k, [d][1..], s');
  }

  /** A delta's step: an instrument update `u`, then buffering for that key only. */
  lemma DeltaSteps(s: Shard, k: Key, d: Delta, s': Shard, evs: seq<Event>)
      returns (u: Shard, held: seq<Delta>, spill: seq<Delta>)
    requires Core(s) && InBudget(s) && HandlesDelta(s, k, d, s', evs)
    ensures Core(u) && InBudget(u) && BuffersAll(u, k, spill, s')
    ensures spill != [] && k in u.insts ==> u.insts[k].status != Ready
    ensures if k in s.insts && s.insts[k].status == Ready
            then Choice(s.insts[k], d, held) &&
                 var o := Classify(s.insts[k], d, held);
                 u == s.Put(k, o.inst) && spill == o.spill && evs == o.events
            else u == s && spill == [d] && evs == []
  {
    assert KeyOk(s, k);
    if k !in s.insts || s.insts[k].status != Ready {
      u, held, spill := s, [], [d];
      BuffersOne(s, k, d, s');
    } else {
      held :| Choice(s.insts[k], d, held) &&
        var o := Classify(s.insts[k], d, held);
        evs == o.events && BuffersAll(s.Put(k, o.inst), k, o.spill, s');
      var o := Classify(s.insts[k], d, held);
      ClassifyOk(s.insts[k], d, held);
      PutOk(s, k, o.inst);
      u, spill := s.Put(k, o.inst), o.spill;
    }
  }

  lemma DeltaOk(s: Shard, k: Key, d: Delta, s': Shard, evs: seq<Event>)
    requires Core(s) && InBudget(s) && HandlesDelta(s, k, d, s', evs)
    ensures Core(s') && InBudget(s')
  {
    var u, held, spill := DeltaSteps(s, k, d, s', evs);
    BuffersAllOk(u, k, spill, s');
  }

  lemma TakeOk(s: Shard, k: Key)
    requires Core(s)
    ensures Core(TakeBuffer(s, k))
  {
    if k in s.bufs {
      TotalRemove(s.bufs, k);
    } else {
      assert s.bufs - {k} == s.bufs;
    }
    forall j ensures KeyOk(TakeBuffer(s, k), j) {
      assert KeyOk(s, j);
    }
  }

  /** A SnapshotEnd that commits: take the buffer, commit and replay, then buffer
      again what the replay could not apply. */
  lemma CommitSteps(s: Shard, k: Key, id: nat, anchor: nat, s': Shard, evs: seq<Event>)
      returns (u: Shard, held: seq<Delta>, o: Outcome)
    requires Core(s) && InBudget(s) && HandlesEnd(s, k, id, anchor, s', evs)
    requires k in s.insts && Commits(s.insts[k], id, anchor)
    ensures ReplayChoice(Commit(s.insts[k]), s.Buf(k), held)
    ensures o == Replay(Commit(s.insts[k]), s.Buf(k), held)
    ensures u == TakeBuffer(s, k).Put(k, o.inst) && evs == [AppliedSnapshot(id, anchor)] + o.events
    ensures Core(u) && InBudget(u) && BuffersAll(u, k, o.spill, s')
    ensures o.spill != [] ==> o.inst.status != Ready
  {
    assert KeyOk(s, k);
    EndOk(s.insts[k], id, anchor);
    var i := Commit(s.insts[k]);
    held :| ReplayChoice(i, s.Buf(k), held) &&
      var o := Replay(i, s.Buf(k), held);
      evs == [AppliedSnapshot(id, anchor)] + o.events &&
      BuffersAll(TakeBuffer(s, k).Put(k, o.inst), k, o.spill, s');
    o := Replay(i, s.Buf(k), held);
    ReplayOk(i, s.Buf(k), held);
    TakeOk(s, k);
    PutOk(TakeBuffer(s, k), k, o.inst);
    u := TakeBuffer(s, k).Put(k, o.inst);
  }

  lemma SnapshotEndOk(s: Shard, k: Key, id: nat, anchor: nat, s': Shard, evs: seq<Event>)
    requires Core(s) && InBudget(s) && HandlesEnd(s, k, id, anchor, s', evs)
    ensures Core(s') && InBudget(s')
  {
    assert KeyOk(s, k);
    if k in s.insts && s.insts[k].shadow.Some? {
      if Commits(s.insts[k], id, anchor) {
        var u, held, o := CommitSteps(s, k, id, anchor, s', evs);
        BuffersAllOk(u, k, o.spill, s');
      } else {
        EndOk(s.insts[k], id, anchor);
        PutOk(s, k, End(s.insts[k], id, anchor));
      }
    }
  }

  /** Only the buffer and the instrument of `k` differ. */
  ghost predicate SameBut(s: Shard, u: Shard, k: Key) {
    forall j :: j != k ==> u.InstFor(j) == s.InstFor(j) && u.Buf(j) == s.Buf(j)
  }

  lemma TakePutSame(s: Shard, k: Key, i: Inst)
    ensures SameBut(s, TakeBuffer(s, k).Put(k, i), k)
  {
  }

  lemma DropShadowSame(s: Shard, k: Key, id: nat, anchor: nat, t: Shard, evs: seq<Event>)
    requires Core(s) && HandlesEnd(s, k, id, anchor, t, evs) && !(k in s.insts && Commits(s.insts[k], id, anchor))
    ensures SameBut(s, t, k)
  {
  }

  lemma EndSteps(s: Shard, k: Key, id: nat, anchor: nat, t: Shard, evs: seq<Event>)
      returns (u: Shard, spill: seq<Delta>)
    requires Core(s) && InBudget(s) && HandlesEnd(s, k, id, anchor, t, evs)
    ensures Core(u) && InBudget(u) && (spill != [] && k in u.insts ==> u.insts[k].status != Ready)
    ensures SameBut(s, u, k) && BuffersAll(u, k, spill, t)
  {
    if k in s.insts && Commits(s.insts[k], id, anchor) {
      var v, held, o := CommitSteps(s, k, id, anchor, t, evs);
      u, spill := v, o.spill;
      TakePutSame(s, k, o.inst);
    } else {
      DropShadowSame(s, k, id, anchor, t, evs);
      SnapshotEndOk(s, k, id, anchor, t, evs);
      u, spill := t, [];
    }
  }

  lemma {:induction false} NewerOk(buf: seq<Delta>, anchor: nat)
    requires Sorted(buf)
    ensures var r := Newer(buf, anchor);
            Sorted(r) && |r| <= |buf| && forall x :: x in r <==> x in buf && x.mseq > anchor
  {
    if buf != [] {
      NewerOk(buf[1..], anchor);
      assert buf == [buf[0]] + buf[1..];
    }
  }

  lemma ResetOk(s: Shard, k: Key, anchor: nat)
    requires Core(s)
    ensures Core(HandleReset(s, k, anchor))
    ensures HandleReset(s, k, anchor).bufferedN <= s.bufferedN
  {
    var t := HandleReset(s, k, anchor);
    assert KeyOk(s, k);
    var kept := Newer(s.Buf(k), anchor);
    NewerOk(s.Buf(k), anchor);
    if k in s.bufs {
      TotalRemove(s.bufs, k);
    } else {
      assert s.bufs - {k} == s.bufs;
    }
    if kept != [] {
      TotalUpdate(s.bufs, k, kept);
    }
    forall j ensures KeyOk(t, j) {
      assert KeyOk(s, j);
    }
  }

  lemma DropOk(s: Shard, ks: set<Key>)
    requires Core(s)
    ensures Core(DropKeys(s, ks)) && DropKeys(s, ks).bufferedN <= s.bufferedN
  {
    TotalSplit(s.bufs, ks);
    forall j ensures KeyOk(DropKeys(s, ks), j) {
      assert KeyOk(s, j);
    }
  }

  lemma CoreIgnores(s: Shard, s': Shard)
    requires Core(s)
    requires s' == s.(refdata := s'.refdata, sawBoundary := s'.sawBoundary, touched := s'.touched, crossed := s'.crossed)
    ensures Core(s')
  {
    forall j ensures KeyOk(s', j) {
      assert KeyOk(s, j);
    }
  }

  lemma ClearShadowsOk(s: Shard)
    requires Core(s)
    ensures Core(HandleClearShadows(s))
  {
    forall j ensures KeyOk(HandleClearShadows(s), j) {
      assert KeyOk(s, j);
    }
  }

  lemma PlainOk(s: Shard, k: Key, body: Body)
    requires Core(s)
    ensures Core(Plain(s, k, body)) && Plain(s, k, body).bufferedN <= s.bufferedN
    ensures Plain(s, k, body).maxBuffered == s.maxBuffered
  {
    assert KeyOk(s, k);
    match body
    case ResetBook(anchor) => ResetOk(s, k, anchor);
    case Definition(_, _) =>
      PutOk(s, k, s.InstFor(k));
      CoreIgnores(s.Put(k, s.InstFor(k)), Plain(s, k, body));
    case SnapshotBegin(h) =>
      BeginOk(s.InstFor(k), h);
      PutOk(s, k, Begin(s.InstFor(k), h));
    case SnapshotLevel(id, level) =>
      if k in s.insts {
        PutOk(s, k, InstrumentSpec.Level(s.insts[k], id, level));
      }
    case _ => CoreIgnores(s, Plain(s, k, body));
  }

  lemma RecordOk(s: Shard, k: Key, rec: Record, s': Shard, evs: seq<Event>)
    requires Core(s) && InBudget(s) && HandlesRecord(s, k, rec, s', evs)
    ensures Core(s') && InBudget(s')
  {
    match rec.body
    case BookDelta(_, _) =>
      var t :| HandlesDelta(s, k, rec.AsDelta(), t, evs) && s' == Note(t, k, evs);
      DeltaOk(s, k, rec.AsDelta(), t, evs);
      CoreIgnores(t, s');
    case SnapshotEnd(id, anchor) =>
      var t :| HandlesEnd(s, k, id, anchor, t, evs) && s' == Note(t, k, evs);
      SnapshotEndOk(s, k, id, anchor, t, evs);
      CoreIgnores(t, s');
    case _ => PlainOk(s, k, rec.body);
  }

  /** The core invariant and the budget survive every message, whatever it carries. */
  lemma CoreKept(s: Shard, m: Message, s': Shard, evs: seq<Event>)
    requires Core(s) && InBudget(s) && Handles(s, m, s', evs)
    ensures Core(s') && InBudget(s')
  {
    match m
    case Rec(rec) => RecordOk(s, rec.At(), rec, s', evs);
    case Wipe(ch) =>
      DropOk(s, OnChannel(s, ch));
      CoreIgnores(DropKeys(s, OnChannel(s, ch)), s');
    case Prune(seqNo) => DropOk(s, OutOfManifest(s, seqNo));
    case ClearShadows => ClearShadowsOk(s);
    case Fence =>
  }
}
