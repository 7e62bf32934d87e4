/** The recovery floor: an instrument comes back only through a snapshot that covers
    everything its demotions threw away. */
module Recovery {
  import opened Wrappers
  import opened Book
  import opened InstrumentSpec
  import opened ShardSpec
  import opened ShardInvariant
  import CrossedIndex

  /** Every member is at or below the floor. */
  ghost predicate Covers(required: Option<nat>, owed: set<nat>) {
    forall x :: x in owed ==> required.Some? && x <= required.value
  }

  // ---- one demotion ----

  /** The seqs strictly between two. */
  function Between(lo: nat, hi: nat): (r: set<nat>)
    ensures forall x :: x in r <==> lo < x < hi
  {
    if lo + 1 < hi then Span(lo + 1, hi - lo - 1) else {}
  }

  /** What a demotion gives up: the entries of the window it does not buffer, a
      malformed record, and the seqs a declared gap stops waiting for. */
  ghost function Discards(i: Inst, d: Delta, o: Outcome): set<nat> {
    if o.inst.status == Ready then {}
    else
      (i.pending.Keys - Seqs(o.spill)) +
      (if MalformedDelta(d) in o.events then {d.piSeq} else {}) +
      (if PerInstrumentGap(d) in o.events then Between(i.lastSeq, d.piSeq) else {})
  }

  /** `o` leaves a floor that is exactly the newest of `lost`. */
  ghost predicate FloorIs(required: Option<nat>, lost: set<nat>) {
    required.Some? && required.value in lost && Covers(required, lost)
  }

  lemma MalformedFloor(i: Inst, d: Delta, held: seq<Delta>)
    requires InstOk(i) && i.status == Ready && Choice(i, d, held) && IsDemotedByMalformed(i, d)
    ensures var o := Classify(i, d, held); FloorIs(o.inst.requiredSeq, Discards(i, d, o))
  {
    var o := Classify(i, d, held);
    assert o.events == [MalformedDelta(d)] && o.spill == held;
    forall x | x in i.pending.Keys ensures x in Seqs(held) {
      assert i.pending[x] in held && i.pending[x].piSeq == x;
    }
    assert MalformedDelta(d) in o.events && PerInstrumentGap(d) !in o.events;
    assert Discards(i, d, o) == {d.piSeq};
  }

  lemma GapOutcome(i: Inst, d: Delta, held: seq<Delta>)
    requires InstOk(i) && i.status == Ready && d.piSeq > i.lastSeq + 1 && !Malformed(d.change)
    requires Classify(i, d, held).inst.status != Ready
    ensures var o := Classify(i, d, held);
            && o.spill == [d] && o.events == [PerInstrumentGap(d)]
            && o.inst.requiredSeq == Some(Highest(d.piSeq - 1, i.pending.Keys - {d.piSeq}))
  {
    ReadyExpectsNext(i);
    assert i.pending[d.piSeq := d].Keys - {d.piSeq} == i.pending.Keys - {d.piSeq};
  }

  lemma GapFloor(i: Inst, d: Delta, held: seq<Delta>)
    requires InstOk(i) && i.status == Ready && d.piSeq > i.lastSeq + 1 && !Malformed(d.change)
    requires Classify(i, d, held).inst.status != Ready
    ensures var o := Classify(i, d, held); FloorIs(o.inst.requiredSeq, Discards(i, d, o))
  {
    GapOutcome(i, d, held);
    var o := Classify(i, d, held);
    GapDiscards(i, d, o);
  }

  lemma GapDiscards(i: Inst, d: Delta, o: Outcome)
    requires o.inst.status != Ready && o.spill == [d] && o.events == [PerInstrumentGap(d)]
    requires d.piSeq > i.lastSeq + 1
    ensures Discards(i, d, o) == (i.pending.Keys - {d.piSeq}) + Between(i.lastSeq, d.piSeq)
  {
    assert o.events[0] in o.events;
    assert Seqs([d]) == {d.piSeq};
  }

  /** A demotion from ready sets the floor at exactly the newest seq it gave up: any
      lower and a snapshot could commit without it, any higher and a good snapshot
      would be refused. */
  lemma FloorIsNewestDiscard(i: Inst, d: Delta, held: seq<Delta>)
    requires InstOk(i) && i.status == Ready && Choice(i, d, held)
    requires Classify(i, d, held).inst.status != Ready
    ensures var o := Classify(i, d, held); FloorIs(o.inst.requiredSeq, Discards(i, d, o))
  {
    ReadyExpectsNext(i);
    if IsDemotedByMalformed(i, d) {
      MalformedFloor(i, d, held);
    } else {
      if d.piSeq == i.lastSeq + 1 {
        ContiguousOk(i, d, held);
      }
      GapFloor(i, d, held);
    }
  }

  // ---- buffering ----

  ghost predicate NotLower(a: Option<nat>, b: Option<nat>) {
    a.Some? ==> b.Some? && b.value >= a.value
  }

  /** Every buffered seq of `before` is still buffered for `j`, or below its floor. */
  ghost predicate KeptOrCovered(before: set<nat>, t: Shard, j: Key) {
    Covers(t.InstFor(j).requiredSeq, before - Seqs(t.Buf(j)))
  }

  ghost function Incoming(j: Key, k: Key, ds: seq<Delta>): set<nat> {
    if j == k then Seqs(ds) else {}
  }

  lemma AgedFloor(s: Shard, t: Shard, j: Key)
    requires OnlyAged(s, t)
    ensures NotLower(s.InstFor(j).requiredSeq, t.InstFor(j).requiredSeq)
  {
    assert j in t.insts ==> Aged(s.InstFor(j), t.insts[j]);
  }

  lemma AppendKeeps(s: Shard, k: Key, d: Delta, j: Key)
    requires Core(s)
    ensures Seqs(s.Buf(j)) + Incoming(j, k, [d]) <= Seqs(Appended(s, k, d).Buf(j))
  {
    assert KeyOk(s, k);
    InsertOk(s.Buf(k), d);
  }

  lemma EvictKeeps(u: Shard, v: Key, j: Key)
    requires v in u.bufs
    ensures KeptOrCovered(Seqs(u.Buf(j)), Evict(u, v), j)
  {
  }

  lemma BufferKeeps(s: Shard, k: Key, d: Delta, t: Shard, j: Key)
    requires Core(s) && Buffers(s, k, d, t)
    ensures KeptOrCovered(Seqs(s.Buf(j)) + Incoming(j, k, [d]), t, j)
  {
    AppendKeeps(s, k, d, j);
    var u := Appended(s, k, d);
    if u.bufferedN > u.maxBuffered {
      var v :| IsLargest(u.bufs, v) && t == Evict(u, v);
      EvictKeeps(u, v, j);
      KeptSubset(Seqs(s.Buf(j)) + Incoming(j, k, [d]), Seqs(u.Buf(j)), t, j);
    }
  }

  lemma KeptSubset(a: set<nat>, b: set<nat>, t: Shard, j: Key)
    requires a <= b && KeptOrCovered(b, t, j)
    ensures KeptOrCovered(a, t, j)
  {
    assert a - Seqs(t.Buf(j)) <= b - Seqs(t.Buf(j));
  }

  lemma KeptOn(a: set<nat>, b: set<nat>, m: Shard, t: Shard, j: Key)
    requires KeptOrCovered(a, m, j) && KeptOrCovered(Seqs(m.Buf(j)) + b, t, j)
    requires NotLower(m.InstFor(j).requiredSeq, t.InstFor(j).requiredSeq)
    ensures KeptOrCovered(a + b, t, j)
  {
    forall x | x in a + b - Seqs(t.Buf(j))
      ensures t.InstFor(j).requiredSeq.Some? && x <= t.InstFor(j).requiredSeq.value
    {
      if x in Seqs(m.Buf(j)) + b {
        assert x in Seqs(m.Buf(j)) + b - Seqs(t.Buf(j));
      } else {
        assert x in a - Seqs(m.Buf(j));
      }
    }
  }

  /** Nothing buffered is dropped without the floor rising over it. */
  lemma {:induction false} BuffersAllKeep(s: Shard, k: Key, ds: seq<Delta>, t: Shard, j: Key)
    requires Core(s) && InBudget(s) && (ds != [] && k in s.insts ==> s.insts[k].status != Ready)
    requires BuffersAll(s, k, ds, t)
    ensures KeptOrCovered(Seqs(s.Buf(j)) + Incoming(j, k, ds), t, j)
    ensures NotLower(s.InstFor(j).requiredSeq, t.InstFor(j).requiredSeq)
    decreases |ds|
  {
    if ds == [] {
      assert Seqs(ds) == {};
    } else {
      var m :| Buffers(s, k, ds[0], m) && BuffersAll(m, k, ds[1..], t);
      BuffersOk(s, k, ds[0], m);
      BufferKeeps(s, k, ds[0], m, j);
      BuffersAllKeep(m, k, ds[1..], t, j);
      AgedFloor(s, m, j);
      KeptOn(Seqs(s.Buf(j)) + Incoming(j, k, [ds[0]]), Incoming(j, k, ds[1..]), m, t, j);
      SeqsSplit(ds);
      assert Seqs(s.Buf(j)) + Incoming(j, k, [ds[0]]) + Incoming(j, k, ds[1..])
          == Seqs(s.Buf(j)) + Incoming(j, k, ds);
    }
  }

  lemma SeqsSplit(ds: seq<Delta>)
    requires ds != []
    ensures Seqs(ds) == Seqs([ds[0]]) + Seqs(ds[1..])
  {
    assert ds == [ds[0]] + ds[1..];
  }

  // ---- the ledger of one instrument ----

  predicate Forgets(s: Shard, m: Message, k: Key) {
    match m
    case Rec(rec) => rec.body.ResetBook? && rec.At() == k
    case Wipe(ch) => ch == k.ch
    case Prune(seqNo) => seqNo > 1 && k in OutOfManifest(s, seqNo)
    case _ => false
  }

  predicate CommitsAt(s: Shard, m: Message, k: Key) {
    m.Rec? && m.rec.body.SnapshotEnd? && m.rec.At() == k && k in s.insts &&
    Commits(s.insts[k], m.rec.body.id, m.rec.body.anchor)
  }

  function Arriving(m: Message, k: Key): set<nat> {
    if m.Rec? && m.rec.body.BookDelta? && m.rec.At() == k then {m.rec.body.piSeq} else {}
  }

  /** The seqs a declared gap stops waiting for. */
  ghost function Skipped(s: Shard, m: Message, evs: seq<Event>, k: Key): set<nat> {
    if m.Rec? && m.rec.body.BookDelta? && m.rec.At() == k && PerInstrumentGap(m.rec.AsDelta()) in evs
    then Between(s.InstFor(k).lastSeq, m.rec.body.piSeq) else {}
  }

  /** What the demotions of a replay give up. */
  ghost function ReplayDiscards(i: Inst, buf: seq<Delta>, held: seq<Delta>): set<nat>
    decreases |buf|
  {
    if buf == [] then {}
    else if buf[0].mseq <= i.lastMkt || i.status != Ready then ReplayDiscards(i, buf[1..], held)
    else
      var o := Classify(i, buf[0], held);
      Discards(i, buf[0], o) + ReplayDiscards(o.inst, buf[1..], held)
  }

  /** `owed` is every seq the demotions of `k` discarded or skipped since its last
      commit or reset; a message turns it into `owed'`. Held seqs that a message at a
      non-serving instrument leaves nowhere are discarded. */
  ghost predicate Ledger(s: Shard, m: Message, t: Shard, evs: seq<Event>, k: Key, owed: set<nat>, owed': set<nat>) {
    if Forgets(s, m, k) then owed' == {}
    else if CommitsAt(s, m, k) then
      exists u: Shard, held: seq<Delta> :: LedgerOfCommit(s, u, t, k, held, owed')
    else if t.InstFor(k).status == Ready then owed' == owed
    else owed' == owed + Skipped(s, m, evs, k)
               + (s.InstFor(k).pending.Keys + Seqs(s.Buf(k)) + Arriving(m, k) - Seqs(t.Buf(k)))
  }

  ghost predicate LedgerOfCommit(s: Shard, u: Shard, t: Shard, k: Key, held: seq<Delta>, owed': set<nat>) {
    k in s.insts && s.insts[k].shadow.Some? &&
    var i := Commit(s.insts[k]);
    var o := Replay(i, s.Buf(k), held);
    && ReplayChoice(i, s.Buf(k), held)
    && BuffersAll(TakeBuffer(s, k).Put(k, o.inst), k, o.spill, u)
    && t.insts == u.insts && t.bufs == u.bufs
    && owed' == ReplayDiscards(i, s.Buf(k), held) + (Seqs(o.spill) - Seqs(t.Buf(k)))
  }

  ghost predicate Covered(s: Shard, k: Key, owed: set<nat>) {
    && (owed != {} ==> s.InstFor(k).status != Ready)
    && Covers(s.InstFor(k).requiredSeq, owed)
  }

  // ---- one message ----

  lemma {:induction false} ReplayCovers(i: Inst, buf: seq<Delta>, held: seq<Delta>)
    requires InstOk(i) && ReplayChoice(i, buf, held)
    ensures Covers(Replay(i, buf, held).inst.requiredSeq, ReplayDiscards(i, buf, held))
    ensures i.status != Ready ==> ReplayDiscards(i, buf, held) == {}
    ensures ReplayDiscards(i, buf, held) != {} ==> Replay(i, buf, held).inst.status != Ready
    decreases |buf|
  {
    if buf != [] {
      if buf[0].mseq <= i.lastMkt || i.status != Ready {
        ReplayCovers(i, buf[1..], held);
      } else {
        var o := Classify(i, buf[0], held);
        ClassifyOk(i, buf[0], held);
        ReplayCovers(o.inst, buf[1..], held);
        ReplayOk(o.inst, buf[1..], held);
        if o.inst.status != Ready {
          FloorIsNewestDiscard(i, buf[0], held);
        }
      }
    }
  }

  /** Buffering what an operation at `k` spilled: it is kept or covered, and what the
      operation's own floor covers stays covered. */
  lemma SpillLedger(s: Shard, k: Key, i: Inst, spill: seq<Delta>, lost: set<nat>, t: Shard)
    requires Core(s) && InBudget(s) && InstOk(i) && k !in s.bufs && (spill != [] ==> i.status != Ready)
    requires BuffersAll(s.Put(k, i), k, spill, t) && Covers(i.requiredSeq, lost)
    ensures Covers(t.InstFor(k).requiredSeq, lost + (Seqs(spill) - Seqs(t.Buf(k))))
    ensures i.status != Ready ==> t.InstFor(k).status != Ready
    ensures i.status == Ready ==> t.InstFor(k) == i
  {
    PutOk(s, k, i);
    SpillKeeps(s.Put(k, i), k, spill, t);
    var required, kept := t.InstFor(k).requiredSeq, Seqs(t.Buf(k));
    forall x | x in lost + (Seqs(spill) - kept) ensures required.Some? && x <= required.value {
      if x !in lost {
        assert x in Seqs(spill) - kept;
      }
    }
  }

  lemma SpillKeeps(s: Shard, k: Key, spill: seq<Delta>, t: Shard)
    requires Core(s) && InBudget(s) && k in s.insts && (spill != [] ==> s.insts[k].status != Ready)
    requires BuffersAll(s, k, spill, t)
    ensures Covers(t.InstFor(k).requiredSeq, Seqs(spill) - Seqs(t.Buf(k)))
    ensures NotLower(s.insts[k].requiredSeq, t.InstFor(k).requiredSeq) && Aged(s.insts[k], t.InstFor(k))
  {
    BuffersAllKeep(s, k, spill, t, k);
    BuffersAllOk(s, k, spill, t);
    assert Aged(s.InstFor(k), t.insts[k]);
    var all := Seqs(s.Buf(k)) + Incoming(k, k, spill) - Seqs(t.Buf(k));
    assert forall x :: x in Seqs(spill) - Seqs(t.Buf(k)) ==> x in all;
  }

  lemma CommitLedger(s: Shard, u: Shard, t: Shard, k: Key, held: seq<Delta>, owed': set<nat>)
    requires Core(s) && InBudget(s) && LedgerOfCommit(s, u, t, k, held, owed')
    requires InstOk(Commit(s.insts[k]))
    ensures Covered(t, k, owed')
  {
    var i := Commit(s.insts[k]);
    var o := Replay(i, s.Buf(k), held);
    ReplayOk(i, s.Buf(k), held);
    ReplayCovers(i, s.Buf(k), held);
    TakeOk(s, k);
    SpillLedger(TakeBuffer(s, k), k, o.inst, o.spill, ReplayDiscards(i, s.Buf(k), held), u);
    assert Seqs([]) == {};
  }

  lemma ReadyDeltaLedger(s: Shard, k: Key, d: Delta, t: Shard, held: seq<Delta>)
    requires Core(s) && InBudget(s) && k in s.insts && s.insts[k].status == Ready && Choice(s.insts[k], d, held)
    requires BuffersAll(s.Put(k, Classify(s.insts[k], d, held).inst), k, Classify(s.insts[k], d, held).spill, t)
    ensures var i, evs := s.insts[k], Classify(s.insts[k], d, held).events;
            t.InstFor(k).status != Ready ==>
              Covers(t.InstFor(k).requiredSeq,
                     (if PerInstrumentGap(d) in evs then Between(i.lastSeq, d.piSeq) else {})
                     + (i.pending.Keys + Seqs(s.Buf(k)) + {d.piSeq} - Seqs(t.Buf(k))))
  {
    var i := s.insts[k];
    var o := Classify(i, d, held);
    assert KeyOk(s, k);
    assert s.Buf(k) == [] && Seqs([]) == {};
    ClassifyOk(i, d, held);
    if o.inst.status != Ready {
      FloorIsNewestDiscard(i, d, held);
      Accounted(i, d, held);
    }
    var lost := Discards(i, d, o);
    SpillLedger(s, k, o.inst, o.spill, lost, t);
    CoversMore(t.InstFor(k).requiredSeq, i, d, o, Seqs(t.Buf(k)));
  }

  lemma CoversMore(required: Option<nat>, i: Inst, d: Delta, o: Outcome, kept: set<nat>)
    requires o.inst.status != Ready ==>
               && Covers(required, Discards(i, d, o) + (Seqs(o.spill) - kept))
               && (d.piSeq in Seqs(o.spill) || d.piSeq in Discards(i, d, o))
    ensures o.inst.status != Ready ==>
              Covers(required, (if PerInstrumentGap(d) in o.events then Between(i.lastSeq, d.piSeq) else {})
                               + (i.pending.Keys + {} + {d.piSeq} - kept))
  {
    var given := Discards(i, d, o) + (Seqs(o.spill) - kept);
    var more := (if PerInstrumentGap(d) in o.events then Between(i.lastSeq, d.piSeq) else {})
                + (i.pending.Keys + {} + {d.piSeq} - kept);
    if o.inst.status != Ready {
      assert more <= given;
    }
  }

  /** A demoting record is buffered or given up. */
  lemma Accounted(i: Inst, d: Delta, held: seq<Delta>)
    requires InstOk(i) && i.status == Ready && Classify(i, d, held).inst.status != Ready
    ensures var o := Classify(i, d, held); d.piSeq in Seqs(o.spill) || d.piSeq in Discards(i, d, o)
  {
    ReadyExpectsNext(i);
    var o := Classify(i, d, held);
    if d.piSeq == i.lastSeq + 1 && !Malformed(d.change) {
      ContiguousOk(i, d, held);
    }
    assert o.events == [MalformedDelta(d)] || o.spill == [d];
    assert o.events[0] in o.events;
    assert d in [d];
  }

  /** What a delta at `k` adds to the ledger of `j`. */
  ghost function DeltaOwes(s: Shard, k: Key, d: Delta, t: Shard, evs: seq<Event>, j: Key): set<nat> {
    if t.InstFor(j).status == Ready then {}
    else
      (if j == k && PerInstrumentGap(d) in evs then Between(s.InstFor(j).lastSeq, d.piSeq) else {}) +
      (s.InstFor(j).pending.Keys + Seqs(s.Buf(j)) + (if j == k then {d.piSeq} else {}) - Seqs(t.Buf(j)))
  }

  lemma OwnDeltaLedger(s: Shard, k: Key, d: Delta, t: Shard, evs: seq<Event>)
    requires Core(s) && InBudget(s) && HandlesDelta(s, k, d, t, evs)
    requires k in s.insts && s.insts[k].status == Ready
    ensures Covered(t, k, DeltaOwes(s, k, d, t, evs, k))
  {
    var u, held, spill := DeltaSteps(s, k, d, t, evs);
    ReadyDeltaLedger(s, k, d, t, held);
  }

  lemma PutSame(s: Shard, k: Key, i: Inst)
    ensures SameBut(s, s.Put(k, i), k)
  {
  }

  /** A delta that is not at a ready `j`: at most an eviction touches `j`. */
  lemma DeltaAges(s: Shard, k: Key, d: Delta, t: Shard, evs: seq<Event>, j: Key)
    requires Core(s) && InBudget(s) && HandlesDelta(s, k, d, t, evs)
    requires !(j == k && k in s.insts && s.insts[k].status == Ready)
    ensures Aged(s.InstFor(j), t.InstFor(j)) && (j == k ==> evs == [])
    ensures KeptOrCovered(Seqs(s.Buf(j)) + (if j == k then {d.piSeq} else {}), t, j)
  {
    var u, held, spill := DeltaSteps(s, k, d, t, evs);
    SpillAgesAt(u, k, spill, t, j);
    if j == k {
      assert Seqs([d]) == {d.piSeq};
    } else if u != s {
      PutSame(s, k, Classify(s.insts[k], d, held).inst);
    }
  }

  lemma SpillAgesAt(u: Shard, k: Key, ds: seq<Delta>, t: Shard, j: Key)
    requires Core(u) && InBudget(u) && (ds != [] && k in u.insts ==> u.insts[k].status != Ready)
    requires BuffersAll(u, k, ds, t)
    ensures Aged(u.InstFor(j), t.InstFor(j)) && KeptOrCovered(Seqs(u.Buf(j)) + Incoming(j, k, ds), t, j)
  {
    BuffersAllKeep(u, k, ds, t, j);
    BuffersAllOk(u, k, ds, t);
    assert j in t.insts ==> Aged(u.InstFor(j), t.insts[j]);
  }

  lemma OtherDeltaLedger(s: Shard, k: Key, d: Delta, t: Shard, evs: seq<Event>, j: Key, owed: set<nat>)
    requires Core(s) && InBudget(s) && HandlesDelta(s, k, d, t, evs) && Covered(s, j, owed)
    requires !(j == k && k in s.insts && s.insts[k].status == Ready)
    ensures Covered(t, j, owed + DeltaOwes(s, k, d, t, evs, j))
    ensures Steady(s.InstFor(j), t.InstFor(j))
  {
    DeltaAges(s, k, d, t, evs, j);
    assert KeyOk(s, j);
    var arriving := if j == k then {d.piSeq} else {};
    OtherLedger(s, j, t, arriving, owed);
    assert DeltaOwes(s, k, d, t, evs, j) == AgedOwes(s, j, t, arriving);
  }

  lemma DeltaLedger(s: Shard, k: Key, d: Delta, t: Shard, evs: seq<Event>, j: Key, owed: set<nat>)
    requires Core(s) && InBudget(s) && HandlesDelta(s, k, d, t, evs) && Covered(s, j, owed)
    ensures Covered(t, j, owed + DeltaOwes(s, k, d, t, evs, j))
    ensures NotLower(s.InstFor(j).requiredSeq, t.InstFor(j).requiredSeq)
    ensures t.InstFor(j).status == Ready ==> s.InstFor(j).status == Ready
  {
    if j == k && k in s.insts && s.insts[k].status == Ready {
      assert KeyOk(s, k);
      OwnDeltaLedger(s, k, d, t, evs);
      assert owed == {};
    } else {
      OtherDeltaLedger(s, k, d, t, evs, j, owed);
    }
  }

  ghost function AgedOwes(s: Shard, j: Key, t: Shard, arriving: set<nat>): set<nat> {
    if t.InstFor(j).status == Ready then {}
    else s.InstFor(j).pending.Keys + Seqs(s.Buf(j)) + arriving - Seqs(t.Buf(j))
  }

  /** The floor did not fall, and serving neither began nor ended. */
  ghost predicate Steady(i: Inst, j: Inst) {
    NotLower(i.requiredSeq, j.requiredSeq) && (j.status == Ready <==> i.status == Ready)
  }

  /** No demotion of `j` by a record of its own: only an eviction can owe more. */
  lemma OtherLedger(s: Shard, j: Key, t: Shard, arriving: set<nat>, owed: set<nat>)
    requires KeyOk(s, j) && Covered(s, j, owed) && Steady(s.InstFor(j), t.InstFor(j))
    requires KeptOrCovered(Seqs(s.Buf(j)) + arriving, t, j)
    ensures Covered(t, j, owed + AgedOwes(s, j, t, arriving))
  {
    if t.InstFor(j).status != Ready {
      assert s.InstFor(j).pending.Keys == {};
      assert AgedOwes(s, j, t, arriving) == Seqs(s.Buf(j)) + arriving - Seqs(t.Buf(j));
    }
  }

  /** A message that neither forgets `k`, commits a snapshot for it nor carries a
      delta of its own. */
  lemma IdleLedger(s: Shard, t: Shard, k: Key, owed: set<nat>)
    requires Core(s) && Covered(s, k, owed) && Steady(s.InstFor(k), t.InstFor(k))
    requires KeptOrCovered(Seqs(s.Buf(k)), t, k)
    ensures Covered(t, k, owed + AgedOwes(s, k, t, {}))
  {
    assert KeyOk(s, k);
    assert Seqs(s.Buf(k)) + {} == Seqs(s.Buf(k));
    OtherLedger(s, k, t, {}, owed);
  }

  lemma IdlePlain(s: Shard, j: Key, body: Body, k: Key)
    requires !(body.ResetBook? && j == k)
    ensures Steady(s.InstFor(k), Plain(s, j, body).InstFor(k))
    ensures Plain(s, j, body).Buf(k) == s.Buf(k)
  {
  }

  lemma IdleEnd(s: Shard, j: Key, id: nat, anchor: nat, t: Shard, evs: seq<Event>, k: Key)
    requires Core(s) && InBudget(s) && HandlesEnd(s, j, id, anchor, t, evs)
    requires !(j == k && k in s.insts && Commits(s.insts[k], id, anchor))
    ensures Steady(s.InstFor(k), t.InstFor(k)) && KeptOrCovered(Seqs(s.Buf(k)), t, k)
  {
    if j != k {
      var u, spill := EndSteps(s, j, id, anchor, t, evs);
      SpillAgesAt(u, j, spill, t, k);
      assert Seqs(u.Buf(k)) + {} == Seqs(u.Buf(k));
    }
  }

  lemma IdleWhole(s: Shard, m: Message, t: Shard, evs: seq<Event>, k: Key)
    requires Core(s) && InBudget(s) && Handles(s, m, t, evs) && !m.Rec? && !Forgets(s, m, k)
    ensures Steady(s.InstFor(k), t.InstFor(k)) && t.Buf(k) == s.Buf(k)
  {
  }

  lemma IdleRecord(s: Shard, rec: Record, t: Shard, evs: seq<Event>, k: Key)
    requires Core(s) && InBudget(s) && HandlesRecord(s, rec.At(), rec, t, evs) && !rec.body.BookDelta?
    requires !Forgets(s, Rec(rec), k) && !CommitsAt(s, Rec(rec), k)
    ensures Steady(s.InstFor(k), t.InstFor(k)) && KeptOrCovered(Seqs(s.Buf(k)), t, k)
  {
    if rec.body.SnapshotEnd? {
      var u :| HandlesEnd(s, rec.At(), rec.body.id, rec.body.anchor, u, evs) && t == Note(u, rec.At(), evs);
      IdleEnd(s, rec.At(), rec.body.id, rec.body.anchor, u, evs, k);
    } else {
      IdlePlain(s, rec.At(), rec.body, k);
    }
  }

  lemma LedgerOfDelta(s: Shard, rec: Record, t: Shard, evs: seq<Event>, k: Key, owed: set<nat>, owed': set<nat>)
    requires rec.body.BookDelta? && Ledger(s, Rec(rec), t, evs, k, owed, owed')
    ensures owed' == owed + DeltaOwes(s, rec.At(), rec.AsDelta(), t, evs, k)
  {
    if t.InstFor(k).status == Ready {
      assert owed + {} == owed;
    }
  }

  lemma NoteKeepsDebt(s: Shard, k: Key, d: Delta, u: Shard, evs: seq<Event>, j: Key, owed: set<nat>)
    requires Covered(u, j, owed + DeltaOwes(s, k, d, u, evs, j))
    ensures Covered(Note(u, k, evs), j, owed + DeltaOwes(s, k, d, Note(u, k, evs), evs, j))
  {
  }

  lemma DeltaLedgerStep(s: Shard, rec: Record, t: Shard, evs: seq<Event>, k: Key, owed: set<nat>, owed': set<nat>)
    requires Core(s) && InBudget(s) && rec.body.BookDelta? && HandlesRecord(s, rec.At(), rec, t, evs)
    requires Covered(s, k, owed) && Ledger(s, Rec(rec), t, evs, k, owed, owed')
    ensures Covered(t, k, owed') && NotLower(s.InstFor(k).requiredSeq, t.InstFor(k).requiredSeq)
    ensures t.InstFor(k).status == Ready ==> s.InstFor(k).status == Ready
  {
    LedgerOfDelta(s, rec, t, evs, k, owed, owed');
    DeltaOwed(s, rec, t, evs, k, owed);
  }

  lemma DeltaOwed(s: Shard, rec: Record, t: Shard, evs: seq<Event>, k: Key, owed: set<nat>)
    requires Core(s) && InBudget(s) && rec.body.BookDelta? && HandlesRecord(s, rec.At(), rec, t, evs)
    requires Covered(s, k, owed)
    ensures Covered(t, k, owed + DeltaOwes(s, rec.At(), rec.AsDelta(), t, evs, k))
    ensures NotLower(s.InstFor(k).requiredSeq, t.InstFor(k).requiredSeq)
    ensures t.InstFor(k).status == Ready ==> s.InstFor(k).status == Ready
  {
    var u :| HandlesDelta(s, rec.At(), rec.AsDelta(), u, evs) && t == Note(u, rec.At(), evs);
    DeltaLedger(s, rec.At(), rec.AsDelta(), u, evs, k, owed);
    NoteKeepsDebt(s, rec.At(), rec.AsDelta(), u, evs, k, owed);
  }

  lemma CommitLedgerStep(s: Shard, m: Message, t: Shard, evs: seq<Event>, k: Key, owed: set<nat>, owed': set<nat>)
    requires Core(s) && InBudget(s) && CommitsAt(s, m, k) && Ledger(s, m, t, evs, k, owed, owed')
    ensures Covered(t, k, owed')
  {
    var u: Shard, held: seq<Delta> :| LedgerOfCommit(s, u, t, k, held, owed');
    assert KeyOk(s, k);
    EndOk(s.insts[k], m.rec.body.id, m.rec.body.anchor);
    CommitLedger(s, u, t, k, held, owed');
  }

  lemma IdleLedgerStep(s: Shard, m: Message, t: Shard, evs: seq<Event>, k: Key, owed: set<nat>, owed': set<nat>)
    requires Core(s) && InBudget(s) && Handles(s, m, t, evs)
    requires !Forgets(s, m, k) && !CommitsAt(s, m, k) && !(m.Rec? && m.rec.body.BookDelta?)
    requires Covered(s, k, owed) && Ledger(s, m, t, evs, k, owed, owed')
    ensures Covered(t, k, owed') && Steady(s.InstFor(k), t.InstFor(k))
  {
    if m.Rec? {
      IdleRecord(s, m.rec, t, evs, k);
    } else {
      IdleWhole(s, m, t, evs, k);
    }
    IdleLedger(s, t, k, owed);
    assert owed' == owed + AgedOwes(s, k, t, {});
  }

  /** One message: what is owed stays covered by the floor, the floor falls only with
      a commit or when the instrument is forgotten, and serving begins only with a
      commit. */
  lemma LedgerStep(s: Shard, m: Message, t: Shard, evs: seq<Event>, k: Key, owed: set<nat>, owed': set<nat>)
    requires Core(s) && InBudget(s) && Handles(s, m, t, evs)
    requires Covered(s, k, owed) && Ledger(s, m, t, evs, k, owed, owed')
    ensures Covered(t, k, owed')
    ensures !Forgets(s, m, k) && !CommitsAt(s, m, k) ==>
              NotLower(s.InstFor(k).requiredSeq, t.InstFor(k).requiredSeq) &&
              (t.InstFor(k).status == Ready ==> s.InstFor(k).status == Ready)
  {
    if CommitsAt(s, m, k) {
      CommitLedgerStep(s, m, t, evs, k, owed, owed');
    } else if m.Rec? && m.rec.body.BookDelta? {
      DeltaLedgerStep(s, m.rec, t, evs, k, owed, owed');
    } else if !Forgets(s, m, k) {
      IdleLedgerStep(s, m, t, evs, k, owed, owed');
    }
  }

  // ---- whole runs ----

  /** Over any run and any instrument, with every demotion recorded: what was
      discarded or skipped since the last commit or reset stays at or below the
      floor, and an instrument owing anything is not serving. */
  lemma {:induction false} DebtIsCovered(states: seq<Shard>, inbox: seq<Message>, events: seq<seq<Event>>,
                                         budget: nat, k: Key, owed: seq<set<nat>>, n: nat)
    requires CrossedIndex.IsRun(states, inbox, events, budget) && n <= |inbox|
    requires |owed| == |states| && owed[0] == {}
    requires forall j :: 0 <= j < |inbox| ==>
               Ledger(states[j], inbox[j], states[j + 1], events[j], k, owed[j], owed[j + 1])
    ensures Covered(states[n], k, owed[n])
  {
    if n > 0 {
      DebtIsCovered(states, inbox, events, budget, k, owed, n - 1);
      CrossedIndex.EveryRun(states, inbox, events, budget, n - 1);
      assert CrossedIndex.HandlesAt(states, inbox, events, n - 1);
      LedgerStep(states[n - 1], inbox[n - 1], states[n], events[n - 1], k, owed[n - 1], owed[n]);
    }
  }

  /** So an instrument returns to service only through a snapshot that covers every
      seq its demotions discarded or skipped. */
  lemma ReturnsOnlyCovered(s: Shard, m: Message, t: Shard, evs: seq<Event>, k: Key, owed: set<nat>, owed': set<nat>)
    requires Core(s) && InBudget(s) && Handles(s, m, t, evs)
    requires Covered(s, k, owed) && Ledger(s, m, t, evs, k, owed, owed')
    requires s.InstFor(k).status != Ready && t.InstFor(k).status == Ready
    ensures CommitsAt(s, m, k)
    ensures forall x :: x in owed ==> x <= s.insts[k].shadow.value.header.last
  {
    LedgerStep(s, m, t, evs, k, owed, owed');
    assert Forgets(s, m, k) ==> t.InstFor(k).status != Ready;
  }
}
