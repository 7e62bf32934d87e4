/** The Market-by-Price shard as its goroutine runs it: maps of objects and buffers
    updated in place. Every method is the step ShardSpec states. */
module Shards {
  import opened Wrappers
  import opened Book
  import opened InstrumentSpec
  import opened ShardSpec
  import opened ShardInvariant
  import opened Instruments
  import opened ChannelMaps
  import CrossedIndex

  lemma {:induction false} BuffersMore(s: Shard, k: Key, ds: seq<Delta>, t: Shard, d: Delta, u: Shard)
    requires BuffersAll(s, k, ds, t) && Buffers(t, k, d, u)
    ensures BuffersAll(s, k, ds + [d], u)
    decreases |ds|
  {
    if ds == [] {
      assert ds + [d] == [d];
      BuffersOne(s, k, d, u);
    } else {
      var m :| Buffers(s, k, ds[0], m) && BuffersAll(m, k, ds[1..], t);
      BuffersMore(m, k, ds[1..], t, d, u);
      var all := ds + [d];
      assert all[1..] == ds[1..] + [d];
      assert Buffers(s, k, all[0], m) && BuffersAll(m, k, all[1..], u);
    }
  }

  lemma BufferedPrefix(s: Shard, k: Key, ds: seq<Delta>, j: nat, t: Shard, u: Shard)
    requires j < |ds| && BuffersAll(s, k, ds[..j], t) && Buffers(t, k, ds[j], u)
    ensures BuffersAll(s, k, ds[..j + 1], u)
  {
    var prefix := ds[..j];
    assert ds[..j + 1] == prefix + [ds[j]];
    BuffersMore(s, k, prefix, t, ds[j], u);
  }

  /** An outcome with one more delta of the buffer behind it. */
  ghost function Extended(o: Outcome, d: Delta, held: seq<Delta>): Outcome {
    if d.mseq <= o.inst.lastMkt then o
    else if o.inst.status != Ready then o.(spill := o.spill + [d])
    else
      var n := Classify(o.inst, d, held);
      Outcome(n.inst, o.spill + n.spill, o.events + n.events)
  }

  lemma ExtendedBehind(first: Outcome, o: Outcome, d: Delta, held: seq<Delta>)
    ensures var whole := Outcome(o.inst, first.spill + o.spill, first.events + o.events);
            var p := Extended(o, d, held);
            Extended(whole, d, held) == Outcome(p.inst, first.spill + p.spill, first.events + p.events)
  {
    var p := Extended(o, d, held);
    if d.mseq > o.inst.lastMkt && o.inst.status == Ready {
      var n := Classify(o.inst, d, held);
      assert (first.spill + o.spill) + n.spill == first.spill + (o.spill + n.spill);
      assert (first.events + o.events) + n.events == first.events + (o.events + n.events);
    } else if d.mseq > o.inst.lastMkt {
      assert (first.spill + o.spill) + [d] == first.spill + (o.spill + [d]);
    }
  }

  lemma ReplayOne(i: Inst, d: Delta, held: seq<Delta>)
    ensures Replay(i, [d], held) == Extended(Outcome(i, [], []), d, held)
    ensures ReplayChoice(i, [d], held) <==> (d.mseq > i.lastMkt && i.status == Ready ==> Choice(i, d, held))
  {
    assert [d][1..] == [];
    if d.mseq > i.lastMkt && i.status == Ready {
      var n := Classify(i, d, held);
      assert n.spill + [] == n.spill && n.events + [] == n.events;
      assert [] + n.spill == n.spill && [] + n.events == n.events;
    }
  }

  /** Replay of one more delta. */
  lemma {:induction false} ReplaySnoc(i: Inst, buf: seq<Delta>, d: Delta, held: seq<Delta>)
    ensures Replay(i, buf + [d], held) == Extended(Replay(i, buf, held), d, held)
    decreases |buf|
  {
    if buf == [] {
      assert buf + [d] == [d];
      ReplayOne(i, d, held);
    } else {
      var rest := buf[1..];
      assert (buf + [d])[0] == buf[0] && (buf + [d])[1..] == rest + [d];
      if buf[0].mseq <= i.lastMkt {
        ReplaySnoc(i, rest, d, held);
      } else if i.status != Ready {
        ReplaySnoc(i, rest, d, held);
        ExtendedBehind(Outcome(i, [buf[0]], []), Replay(i, rest, held), d, held);
        NoEvents(i, buf, held);
        NoEvents(i, rest, held);
        NoEvents(i, buf + [d], held);
      } else {
        var n := Classify(i, buf[0], held);
        ReplaySnoc(n.inst, rest, d, held);
        ExtendedBehind(n, Replay(n.inst, rest, held), d, held);
      }
    }
  }

  lemma {:induction false} NoEvents(i: Inst, buf: seq<Delta>, held: seq<Delta>)
    requires i.status != Ready
    ensures Replay(i, buf, held).events == [] && Replay(i, buf, held).inst == i
    decreases |buf|
  {
    if buf != [] {
      NoEvents(i, buf[1..], held);
    }
  }

  lemma {:induction false} ChoiceSnoc(i: Inst, buf: seq<Delta>, d: Delta, held: seq<Delta>)
    requires ReplayChoice(i, buf, held)
    requires var o := Replay(i, buf, held);
             d.mseq > o.inst.lastMkt && o.inst.status == Ready ==> Choice(o.inst, d, held)
    ensures ReplayChoice(i, buf + [d], held)
    decreases |buf|
  {
    if buf == [] {
      assert buf + [d] == [d];
      ReplayOne(i, d, held);
    } else {
      assert (buf + [d])[0] == buf[0] && (buf + [d])[1..] == buf[1..] + [d];
      if buf[0].mseq <= i.lastMkt || i.status != Ready {
        ChoiceSnoc(i, buf[1..], d, held);
      } else {
        ChoiceSnoc(Classify(i, buf[0], held).inst, buf[1..], d, held);
      }
    }
  }

  /** While it stays ready, a replay does not depend on the choice. */
  lemma {:induction false} ReadyReplay(i: Inst, buf: seq<Delta>, held: seq<Delta>, other: seq<Delta>)
    requires Replay(i, buf, held).inst.status == Ready && InstOk(i)
    ensures Replay(i, buf, other) == Replay(i, buf, held) && ReplayChoice(i, buf, other)
    ensures Replay(i, buf, held).spill == []
    decreases |buf|
  {
    if buf != [] {
      if i.status != Ready {
        ReplayOk(i, buf, held);
      } else if buf[0].mseq <= i.lastMkt {
        ReadyReplay(i, buf[1..], held, other);
      } else {
        var o := Classify(i, buf[0], held);
        ClassifyOk(i, buf[0], held);
        ReplayOk(o.inst, buf[1..], held);
        assert o.inst.status == Ready;
        ReadyReplay(o.inst, buf[1..], held, other);
      }
    }
  }

  /** `s` is what replaying `prefix` at `k` leaves of `s0`. */
  ghost predicate Replayed(s0: Shard, k: Key, i: Inst, prefix: seq<Delta>, held: seq<Delta>, evs: seq<Event>, s: Shard) {
    var o := Replay(i, prefix, held);
    && ReplayChoice(i, prefix, held) && evs == o.events
    && BuffersAll(s0.Put(k, o.inst), k, o.spill, s)
    && k in s.insts && Aged(o.inst, s.insts[k])
  }

  lemma ReplayedNothing(s: Shard, k: Key, i: Inst)
    requires k in s.insts && s.insts[k] == i
    ensures Replayed(s, k, i, [], [], [], s)
  {
    assert s.Put(k, i) == s;
  }

  lemma ReplayedSkip(s0: Shard, k: Key, i: Inst, prefix: seq<Delta>, held: seq<Delta>, evs: seq<Event>, s: Shard, b: Delta)
    requires Replayed(s0, k, i, prefix, held, evs, s) && b.mseq <= s.insts[k].lastMkt
    ensures Replayed(s0, k, i, prefix + [b], held, evs, s)
  {
    ReplaySnoc(i, prefix, b, held);
    ChoiceSnoc(i, prefix, b, held);
  }

  lemma ReplayedBuffer(s0: Shard, k: Key, i: Inst, prefix: seq<Delta>, held: seq<Delta>, evs: seq<Event>, s: Shard, b: Delta, t: Shard)
    requires Replayed(s0, k, i, prefix, held, evs, s) && b.mseq > s.insts[k].lastMkt && s.insts[k].status != Ready
    requires Core(s) && InBudget(s) && Buffers(s, k, b, t)
    ensures Replayed(s0, k, i, prefix + [b], held, evs, t)
  {
    ReplaySnoc(i, prefix, b, held);
    ChoiceSnoc(i, prefix, b, held);
    var o := Replay(i, prefix, held);
    BuffersMore(s0.Put(k, o.inst), k, o.spill, s, b, t);
    BuffersOk(s, k, b, t);
    AgedTwice(o.inst, s.insts[k], t, s, k);
  }

  lemma AgedTwice(i: Inst, j: Inst, t: Shard, s: Shard, k: Key)
    requires Aged(i, j) && OnlyAged(s, t) && k in s.insts && s.insts[k] == j
    ensures k in t.insts && Aged(i, t.insts[k])
  {
    assert Aged(s.InstFor(k), t.insts[k]);
  }

  lemma ReplayedApply(s0: Shard, k: Key, i: Inst, prefix: seq<Delta>, held: seq<Delta>, evs: seq<Event>, s: Shard, b: Delta,
                      held': seq<Delta>, t: Shard)
    requires Replayed(s0, k, i, prefix, held, evs, s) && b.mseq > s.insts[k].lastMkt && s.insts[k].status == Ready
    requires InstOk(i) && Core(s) && InBudget(s)
    requires Choice(s.insts[k], b, held')
    requires BuffersAll(s.Put(k, Classify(s.insts[k], b, held').inst), k, Classify(s.insts[k], b, held').spill, t)
    ensures Replayed(s0, k, i, prefix + [b], held', evs + Classify(s.insts[k], b, held').events, t)
  {
    var o := Replay(i, prefix, held);
    assert o.inst == s.insts[k];
    ReadyReplay(i, prefix, held, held');
    assert s == s0.Put(k, o.inst);
    ReplaySnoc(i, prefix, b, held');
    ChoiceSnoc(i, prefix, b, held');
    var n := Classify(o.inst, b, held');
    assert o.spill + n.spill == n.spill;
    UpdateTwice(s0.insts, k, o.inst, n.inst);
    assert s.Put(k, n.inst) == s0.Put(k, n.inst);
    assert KeyOk(s, k);
    ClassifyOk(o.inst, b, held');
    PutOk(s, k, n.inst);
    BuffersAllOk(s.Put(k, n.inst), k, n.spill, t);
    AgedTwice(n.inst, n.inst, t, s.Put(k, n.inst), k);
  }

  lemma ReadyStepOk(s: Shard, k: Key, d: Delta, held: seq<Delta>, t: Shard)
    requires Core(s) && InBudget(s) && k in s.insts && s.insts[k].status == Ready
    requires BuffersAll(s.Put(k, Classify(s.insts[k], d, held).inst), k, Classify(s.insts[k], d, held).spill, t)
    ensures Core(t) && InBudget(t)
  {
    var o := Classify(s.insts[k], d, held);
    assert KeyOk(s, k);
    ClassifyOk(s.insts[k], d, held);
    PutOk(s, k, o.inst);
    BuffersAllOk(s.Put(k, o.inst), k, o.spill, t);
  }

  lemma CommittedCore(s: Shard, k: Key, i: Inst)
    requires Core(s) && InBudget(s) && InstOk(i)
    ensures TakeBuffer(s.Put(k, i), k) == TakeBuffer(s, k).Put(k, i)
    ensures Core(TakeBuffer(s.Put(k, i), k)) && InBudget(TakeBuffer(s.Put(k, i), k))
  {
    TakeOk(s, k);
    PutOk(TakeBuffer(s, k), k, i);
  }

  /** An end that commits nothing drops the shadow, if there is one. */
  lemma DroppedEnd(s: Shard, k: Key, id: nat, anchor: nat)
    requires !(k in s.insts && Commits(s.insts[k], id, anchor))
    ensures HandlesEnd(s, k, id, anchor, if k in s.insts then s.Put(k, End(s.insts[k], id, anchor)) else s, [])
  {
    if k in s.insts && s.insts[k].shadow.None? {
      assert s.Put(k, End(s.insts[k], id, anchor)) == s;
    }
  }

  lemma CommittedEnd(s: Shard, k: Key, id: nat, anchor: nat, held: seq<Delta>, evs: seq<Event>, t: Shard)
    requires k in s.insts && Commits(s.insts[k], id, anchor)
    requires var i := Commit(s.insts[k]);
             Replayed(TakeBuffer(s.Put(k, i), k), k, i, s.Buf(k), held, evs, t)
    ensures HandlesEnd(s, k, id, anchor, t, [AppliedSnapshot(id, anchor)] + evs)
  {
    var i := Commit(s.insts[k]);
    var o := Replay(i, s.Buf(k), held);
    UpdateTwice(s.insts, k, i, o.inst);
    assert TakeBuffer(s.Put(k, i), k).Put(k, o.inst) == TakeBuffer(s, k).Put(k, o.inst);
    assert End(s.insts[k], id, anchor) == i;
    assert ReplayChoice(i, s.Buf(k), held) && [AppliedSnapshot(id, anchor)] + evs == [AppliedSnapshot(id, anchor)] + o.events
        && BuffersAll(TakeBuffer(s, k).Put(k, o.inst), k, o.spill, t);
  }

  /** Re-evaluation at one more key. */
  lemma ReevaluateMore(s: Shard, ks: set<Key>, u: Shard, k: Key)
    requires u.insts == s.insts && u.crossed == Reevaluate(s, ks)
    ensures Reevaluate(u, {k}) == Reevaluate(s, ks + {k})
  {
  }

  /** A wipe, map by map. */
  lemma WipedParts(s: Shard, t: Shard, ch: nat)
    requires t.insts == s.insts - (set k | k in s.insts && k.ch == ch)
    requires t.refdata == s.refdata - (set k | k in s.refdata && k.ch == ch)
    requires t.bufs == s.bufs - (set k | k in s.bufs && k.ch == ch)
    requires t.bufferedN == s.bufferedN - Total(map k | k in s.bufs && k.ch == ch :: s.bufs[k])
    requires t.crossed == (set k | k in s.crossed && k.ch != ch) && t.touched == (set k | k in s.touched && k.ch != ch)
    requires !t.sawBoundary && t.maxBuffered == s.maxBuffered
    ensures t == HandleWipe(s, ch)
  {
    var ks, u := OnChannel(s, ch), HandleWipe(s, ch);
    assert u.insts == t.insts;
    assert u.refdata == t.refdata;
    assert u.bufs == t.bufs;
    assert (map k | k in s.bufs && k in ks :: s.bufs[k]) == (map k | k in s.bufs && k.ch == ch :: s.bufs[k]);
    assert u.crossed == t.crossed && u.touched == t.touched;
  }

  ghost function Dropped(bufs: map<Key, seq<Delta>>, ks: set<Key>): map<Key, seq<Delta>> {
    map j | j in bufs && j in ks :: bufs[j]
  }

  lemma DroppedMore(bufs: map<Key, seq<Delta>>, ks: set<Key>, k: Key)
    requires k !in ks
    ensures Total(Dropped(bufs, ks + {k})) == Total(Dropped(bufs, ks)) + (if k in bufs then |bufs[k]| else 0)
  {
    var all := Dropped(bufs, ks + {k});
    if k in bufs {
      TotalRemove(all, k);
      assert all - {k} == Dropped(bufs, ks);
    } else {
      assert all == Dropped(bufs, ks);
    }
  }

  lemma DropMore(s: Shard, ks: set<Key>, k: Key)
    requires k !in ks
    ensures DropKeys(s, ks + {k}) == DropKeys(DropKeys(s, ks), {k})
  {
    var t := DropKeys(s, ks);
    DroppedMore(s.bufs, ks, k);
    DroppedMore(t.bufs, {}, k);
    assert {} + {k} == {k};
    assert Dropped(t.bufs, {}) == map[];
    assert s.insts - (ks + {k}) == t.insts - {k};
    assert s.refdata - (ks + {k}) == t.refdata - {k};
    assert s.bufs - (ks + {k}) == t.bufs - {k};
    assert s.crossed - (ks + {k}) == t.crossed - {k};
    assert s.touched - (ks + {k}) == t.touched - {k};
    TotalsAgree(s, ks);
    TotalsAgree(s, ks + {k});
    TotalsAgree(t, {k});
  }

  /** Dropping one key, map by map. */
  lemma DroppedParts(s: Shard, t: Shard, k: Key)
    requires t.insts == s.insts - {k} && t.refdata == s.refdata - {k} && t.bufs == s.bufs - {k}
    requires t.bufferedN == s.bufferedN - |s.Buf(k)|
    requires t.crossed == s.crossed - {k} && t.touched == s.touched - {k}
    requires t.sawBoundary == s.sawBoundary && t.maxBuffered == s.maxBuffered
    ensures t == DropKeys(s, {k})
  {
    DroppedMore(s.bufs, {}, k);
    assert {} + {k} == {k} && Dropped(s.bufs, {}) == map[];
    TotalsAgree(s, {k});
  }

  lemma TotalsAgree(s: Shard, ks: set<Key>)
    ensures DropKeys(s, ks).bufferedN == s.bufferedN - Total(Dropped(s.bufs, ks))
  {
    assert Dropped(s.bufs, ks) == map k | k in s.bufs && k in ks :: s.bufs[k];
  }

  lemma RunsOn(states: seq<Shard>, inbox: seq<Message>, events: seq<seq<Event>>, n: nat, t: Shard, evs: seq<Event>, budget: nat)
    requires n < |inbox| && CrossedIndex.IsRun(states, inbox[..n], events, budget)
    requires Handles(states[n], inbox[n], t, evs)
    ensures CrossedIndex.IsRun(states + [t], inbox[..n + 1], events + [evs], budget)
  {
    var more, after, said := states + [t], inbox[..n + 1], events + [evs];
    forall j | 0 <= j < |after| ensures CrossedIndex.HandlesAt(more, after, said, j) {
      if j < n {
        assert CrossedIndex.HandlesAt(states, inbox[..n], events, j);
        assert after[j] == inbox[..n][j];
      }
    }
  }

  class LiveShard {
    var instruments: map<Key, Instrument>
    var refdata: map<Key, Def>
    var deltaBuf: map<Key, seq<Delta>>
    var bufferedN: int
    const maxBuffered: nat
    var sawBatchBoundary: bool
    var touched: set<Key>
    var crossed: set<Key>

    ghost function Insts(): map<Key, Inst>
      reads this`instruments, instruments.Values
    {
      map k | k in instruments :: instruments[k].State()
    }

    /** The shard's value. */
    ghost function State(): Shard
      reads this, instruments.Values
    {
      Shard(Insts(), refdata, deltaBuf, bufferedN,
            maxBuffered, sawBatchBoundary, touched, crossed)
    }

    /** The instrument at `k`, or the new one the source would create there. */
    ghost function At(k: Key): (i: Inst)
      reads this`instruments, instruments.Values
      ensures k in Insts() ==> i == Insts()[k]
      ensures k !in Insts() ==> i == FRESH
    {
      if k in instruments then instruments[k].State() else FRESH
    }

    /** Every key has an instrument of its own. */
    ghost predicate Distinct()
      reads this
    {
      forall j, k :: j in instruments && k in instruments && j != k ==> instruments[j] != instruments[k]
    }

    ghost predicate Valid()
      reads this, instruments.Values
    {
      Distinct() && Core(State()) && InBudget(State())
    }

    /** No instrument was replaced or dropped, and what was added is new. */
    twostate predicate Grown()
      reads this
    {
      && (forall k :: k in old(instruments) ==> k in instruments && instruments[k] == old(instruments[k]))
      && (forall k :: k in instruments && k !in old(instruments) ==> fresh(instruments[k]))
    }

    /** Only the object at `k` changed. */
    twostate lemma OneChanged(k: Key)
      requires k in instruments && instruments == old(instruments)
      requires forall j :: j in instruments && j != k ==> instruments[j].State() == old(instruments[j].State())
      ensures Insts() == old(Insts())[k := instruments[k].State()]
    {
    }

    /** What is left of the instruments is as it was. */
    twostate predicate Shrunk()
      reads this
    {
      forall k :: k in instruments ==> k in old(instruments) && instruments[k] == old(instruments[k])
    }

    /** Every instrument is one it had or a new one. */
    twostate predicate Within()
      reads this
    {
      forall k :: k in instruments ==> instruments[k] in old(instruments).Values || fresh(instruments[k])
    }

    twostate lemma Restricted(ks: set<Key>)
      requires instruments == old(instruments) - ks
      requires forall k :: k in instruments ==> instruments[k].State() == old(instruments[k].State())
      ensures Insts() == old(Insts()) - ks
    {
    }

    constructor (maxBuffered: nat)
      ensures Valid() && State() == NewShard(maxBuffered)
    {
      this.maxBuffered := maxBuffered;
      instruments, refdata, deltaBuf := map[], map[], map[];
      bufferedN := 0;
      sawBatchBoundary := false;
      touched, crossed := {}, {};
      new;
      assert State() == NewShard(maxBuffered);
      forall k ensures KeyOk(State(), k) {
      }
    }

    // ---- the delta buffer ----

    /** Where `d` goes: the first entry stamped later, found by bisection. */
    static method Search(buf: seq<Delta>, d: Delta) returns (p: nat)
      requires Sorted(buf)
      ensures IsSlot(buf, d, p)
    {
      var lo, hi := 0, |buf|;
      while lo < hi
        invariant 0 <= lo <= hi <= |buf|
        invariant forall j :: 0 <= j < lo ==> buf[j].mseq <= d.mseq
        invariant forall j :: hi <= j < |buf| ==> buf[j].mseq > d.mseq
      {
        var mid := (lo + hi) / 2;
        if buf[mid].mseq > d.mseq {
          hi := mid;
        } else {
          lo := mid + 1;
        }
      }
      p := lo;
    }

    method Append(k: Key, d: Delta)
      requires k in deltaBuf ==> Sorted(deltaBuf[k])
      modifies this`deltaBuf, this`bufferedN
      ensures deltaBuf == old(deltaBuf)[k := Insert(if k in old(deltaBuf) then old(deltaBuf)[k] else [], d)]
      ensures bufferedN == old(bufferedN) + 1
    {
      var buf := if k in deltaBuf then deltaBuf[k] else [];
      if |buf| > 0 && buf[|buf| - 1].mseq > d.mseq {
        var p := Search(buf, d);
        InsertIsSplice(buf, d, p);
        buf := buf[..p] + [d] + buf[p..];
      } else {
        buf := buf + [d];
      }
      deltaBuf := deltaBuf[k := buf];
      bufferedN := bufferedN + 1;
    }

    /** The walk that finds a largest buffer. */
    method LargestBuffer() returns (victim: Key, best: int)
      ensures best <= 0 ==> forall k :: k in deltaBuf ==> deltaBuf[k] == []
      ensures best > 0 ==> IsLargest(deltaBuf, victim) && best == |deltaBuf[victim]|
    {
      victim, best := Key(0, 0), -1;
      var todo := deltaBuf.Keys;
      while todo != {}
        invariant todo <= deltaBuf.Keys
        invariant forall k :: k in deltaBuf && k !in todo ==> |deltaBuf[k]| <= best
        invariant best >= 0 ==> victim in deltaBuf && best == |deltaBuf[victim]|
        decreases todo
      {
        var k :| k in todo;
        todo := todo - {k};
        if |deltaBuf[k]| > best {
          victim, best := k, |deltaBuf[k]|;
        }
      }
    }

    method InstrumentFor(k: Key) returns (inst: Instrument)
      requires Distinct()
      modifies this`instruments
      ensures Distinct() && Grown() && k in instruments && instruments[k] == inst
      ensures inst.State() == old(At(k)) && Insts() == old(Insts())[k := old(At(k))]
    {
      if k in instruments {
        inst := instruments[k];
        assert Insts() == old(Insts());
      } else {
        inst := new Instrument();
        instruments := instruments[k := inst];
        assert Insts() == old(Insts())[k := FRESH];
      }
    }

    method DemoteVictim(victim: Key)
      requires Distinct() && victim in deltaBuf
      modifies this`instruments, instruments.Values
      ensures Distinct() && Grown()
      ensures Insts() == old(Insts())[victim := Evicted(old(At(victim)), deltaBuf[victim])]
    {
      var inst := InstrumentFor(victim);
      label L:
      ghost var i := inst.State();
      inst.DemoteEvicted(deltaBuf[victim]);
      ghost var j := inst.State();
      assert Insts() == old@L(Insts())[victim := j] by { OneChanged@L(victim); }
      UpdateTwice(old(Insts()), victim, i, j);
    }

    method EvictBuffer(victim: Key)
      requires Distinct() && victim in deltaBuf
      modifies this, instruments.Values
      ensures Distinct() && Grown() && State() == Evict(old(State()), victim)
    {
      assert At(victim) == State().InstFor(victim);
      DemoteVictim(victim);
      var buf := Take(victim);
    }

    /** Drop the largest buffer and demote its instrument, if anything is buffered. */
    method EvictLargestBuffer() returns (evicted: bool, victim: Key)
      requires Distinct()
      modifies this, instruments.Values
      ensures Distinct() && Grown()
      ensures evicted <==> exists k :: k in old(deltaBuf) && old(deltaBuf)[k] != []
      ensures evicted ==> IsLargest(old(deltaBuf), victim) && State() == Evict(old(State()), victim)
      ensures !evicted ==> State() == old(State())
    {
      var best: int;
      victim, best := LargestBuffer();
      if best <= 0 {
        return false, victim;
      }
      assert deltaBuf[victim] != [];
      EvictBuffer(victim);
      evicted := true;
    }

    method BufferDelta(k: Key, d: Delta)
      requires Distinct() && (k in deltaBuf ==> Sorted(deltaBuf[k]))
      modifies this, instruments.Values
      ensures Distinct() && Grown() && Buffers(old(State()), k, d, State())
    {
      Append(k, d);
      assert State() == Appended(old(State()), k, d);
      if bufferedN > maxBuffered {
        assert deltaBuf[k] != [];
        var evicted, victim := EvictLargestBuffer();
      }
    }

    // ---- deltas ----

    /** Buffer some deltas one by one. Each may evict. */
    method BufferEach(k: Key, ds: seq<Delta>)
      requires Valid() && (ds != [] && k in instruments ==> instruments[k].status != Ready)
      modifies this, instruments.Values
      ensures Distinct() && Grown() && BuffersAll(old(State()), k, ds, State())
    {
      ghost var s0, s := State(), State();
      assert k in s.insts ==> s.insts[k] == instruments[k].State();
      for j := 0 to |ds|
        invariant Distinct() && Grown() && s == State() && BuffersAll(s0, k, ds[..j], s)
        invariant Core(s) && InBudget(s) && (j < |ds| && k in s.insts ==> s.insts[k].status != Ready)
      {
        assert KeyOk(s, k);
        BufferDelta(k, ds[j]);
        BuffersOk(s, k, ds[j], State());
        BufferedPrefix(s0, k, ds, j, s, State());
        s := State();
      }
      assert ds[..|ds|] == ds;
    }

    /** A delta for a ready instrument: discard, hold, apply, or demote. */
    method ApplyDeltaToReady(k: Key, inst: Instrument, d: Delta) returns (evs: seq<Event>, ghost held: seq<Delta>)
      requires Valid() && k in instruments && instruments[k] == inst && inst.status == Ready
      modifies this, instruments.Values
      ensures Distinct() && Grown() && Choice(old(inst.State()), d, held)
      ensures var o := Classify(old(inst.State()), d, held);
              evs == o.events && BuffersAll(old(State()).Put(k, o.inst), k, o.spill, State())
    {
      ghost var i := inst.State();
      assert KeyOk(State(), k);
      assert old(State()).Put(k, i) == old(State());
      ReadyExpectsNext(i);
      held := [];
      var expected := inst.NextExpectedInstrumentSeq();
      if d.piSeq < expected {
        return [], [];
      }
      if Malformed(d.change) {
        evs := [MalformedDelta(d)];
        held := DemoteMalformed(k, inst, d);
        return;
      }
      if d.piSeq > expected {
        evs := Hold(k, inst, d);
        return;
      }
      ContiguousOk(i, d, []);
      evs := inst.ApplyAndDrain(d);
      OneChanged(k);
      return;
    }

    /** Demote because a book-affecting record was malformed: keep what the window
        held, in the buffer. */
    method DemoteMalformed(k: Key, inst: Instrument, d: Delta) returns (held: seq<Delta>)
      requires Valid() && k in instruments && instruments[k] == inst && inst.status == Ready
      requires IsDemotedByMalformed(inst.State(), d)
      modifies this, instruments.Values
      ensures Distinct() && Grown() && Enumerates(held, old(inst.pending))
      ensures BuffersAll(old(State()).Put(k, InstrumentSpec.DemoteMalformed(old(inst.State()), d.piSeq)), k, held, State())
    {
      ghost var i := inst.State();
      assert KeyOk(State(), k);
      ClassifyOk(i, d, []);
      PutOk(State(), k, InstrumentSpec.DemoteMalformed(i, d.piSeq));
      held := inst.DemoteMalformed(d.piSeq);
      OneChanged(k);
      assert State() == old(State()).Put(k, inst.State());
      BufferEach(k, held);
    }

    /** A delta ahead of the expected one: wait for the hole to fill, or give up. */
    method Hold(k: Key, inst: Instrument, d: Delta) returns (evs: seq<Event>)
      requires Valid() && k in instruments && instruments[k] == inst && inst.status == Ready
      requires d.piSeq > NextExpected(inst.State()) && !Malformed(d.change)
      modifies this, instruments.Values
      ensures Distinct() && Grown()
      ensures var o := Classify(old(inst.State()), d, []);
              evs == o.events && BuffersAll(old(State()).Put(k, o.inst), k, o.spill, State())
    {
      ghost var i := inst.State();
      assert KeyOk(State(), k);
      var expected := inst.NextExpectedInstrumentSeq();
      ClassifyOk(i, d, []);
      inst.pending := inst.pending[d.piSeq := d];
      if |inst.pending| <= REORDER_WINDOW && d.piSeq - expected <= REORDER_WINDOW {
        OneChanged(k);
        return [];
      }
      inst.DeclareGap(d.piSeq);
      OneChanged(k);
      ghost var o := Classify(i, d, []);
      assert inst.State() == o.inst && State() == old(State()).Put(k, o.inst);
      PutOk(old(State()), k, o.inst);
      BufferDelta(k, d);
      BuffersOne(old(State()).Put(k, o.inst), k, d, State());
      return [PerInstrumentGap(d)];
    }

    method ApplyDelta(k: Key, d: Delta) returns (evs: seq<Event>)
      requires Valid()
      modifies this, instruments.Values
      ensures Distinct() && Grown() && HandlesDelta(old(State()), k, d, State(), evs)
    {
      assert KeyOk(State(), k);
      if k !in instruments || instruments[k].status != Ready {
        BufferDelta(k, d);
        return [];
      }
      ghost var held;
      evs, held := ApplyDeltaToReady(k, instruments[k], d);
    }

    // ---- snapshots ----

    method Take(k: Key) returns (buf: seq<Delta>)
      modifies this`deltaBuf, this`bufferedN
      ensures State() == TakeBuffer(old(State()), k) && buf == old(State()).Buf(k)
    {
      buf := if k in deltaBuf then deltaBuf[k] else [];
      bufferedN := bufferedN - |buf|;
      deltaBuf := deltaBuf - {k};
    }

    /** Drop the buffered deltas the anchor covers and put the rest through the same
        classification as live traffic; from a demotion on, buffer them again. */
    method ReplayBuffer(k: Key, inst: Instrument) returns (evs: seq<Event>, ghost held: seq<Delta>)
      requires Distinct() && k in instruments && instruments[k] == inst
      requires Core(TakeBuffer(State(), k)) && InBudget(TakeBuffer(State(), k)) && InstOk(inst.State())
      modifies this, instruments.Values
      ensures Valid() && Grown()
      ensures Replayed(TakeBuffer(old(State()), k), k, old(inst.State()), old(State()).Buf(k), held, evs, State())
    {
      var buf := Take(k);
      evs, held := ReplayAll(k, inst, buf);
    }

    method ReplayAll(k: Key, inst: Instrument, buf: seq<Delta>) returns (evs: seq<Event>, ghost held: seq<Delta>)
      requires Valid() && k in instruments && instruments[k] == inst
      modifies this, instruments.Values
      ensures Valid() && Grown()
      ensures Replayed(old(State()), k, old(inst.State()), buf, held, evs, State())
    {
      ghost var s0, i0 := State(), inst.State();
      assert KeyOk(s0, k);
      evs, held := [], [];
      ReplayedNothing(s0, k, i0);
      for j := 0 to |buf|
        invariant Valid() && Grown() && k in instruments && instruments[k] == inst
        invariant Replayed(s0, k, i0, buf[..j], held, evs, State())
      {
        assert buf[..j] + [buf[j]] == buf[..j + 1];
        evs, held := ReplayOne(k, inst, buf[j], evs, s0, i0, buf[..j], held);
      }
      assert buf[..|buf|] == buf;
    }

    /** One entry of the buffer: covered, buffered again, or classified. */
    method ReplayOne(k: Key, inst: Instrument, b: Delta, evs: seq<Event>,
                     ghost s0: Shard, ghost i0: Inst, ghost prefix: seq<Delta>, ghost held: seq<Delta>)
        returns (evs': seq<Event>, ghost held': seq<Delta>)
      requires Valid() && k in instruments && instruments[k] == inst && InstOk(i0)
      requires Replayed(s0, k, i0, prefix, held, evs, State())
      modifies this, instruments.Values
      ensures Valid() && Grown() && Replayed(s0, k, i0, prefix + [b], held', evs', State())
    {
      ghost var s := State();
      assert s.insts[k] == inst.State();
      evs', held' := evs, held;
      if b.mseq <= inst.lastMkt {
        ReplayedSkip(s0, k, i0, prefix, held, evs, s, b);
      } else if inst.status != Ready {
        assert KeyOk(s, k);
        BufferDelta(k, b);
        BuffersOk(s, k, b, State());
        ReplayedBuffer(s0, k, i0, prefix, held, evs, s, b, State());
      } else {
        var more;
        more, held' := ApplyDeltaToReady(k, inst, b);
        ReadyStepOk(s, k, b, held', State());
        ReplayedApply(s0, k, i0, prefix, held, evs, s, b, held', State());
        evs' := evs + more;
      }
    }

    method ApplySnapshotBegin(k: Key, h: GroupHeader)
      requires Distinct()
      modifies this`instruments, instruments.Values
      ensures Distinct() && Grown() && State() == old(State()).Put(k, Begin(old(State()).InstFor(k), h))
    {
      assert At(k) == State().InstFor(k);
      var inst := InstrumentFor(k);
      label L:
      ghost var i := inst.State();
      if inst.SnapshotAcceptable(h.anchor, h.last) == Accepted {
        inst.BeginSnapshot(h);
      }
      OneChanged@L(k);
      UpdateTwice(old(Insts()), k, i, inst.State());
    }

    method ApplySnapshotLevel(k: Key, id: nat, l: SnapLevel)
      requires Distinct()
      modifies instruments.Values
      ensures Distinct() && State() == Plain(old(State()), k, SnapshotLevel(id, l))
    {
      if k in instruments {
        var r := instruments[k].AddSnapshotLevel(id, l);
        OneChanged(k);
      }
    }

    method EndShadow(k: Key, inst: Instrument, id: nat, anchor: nat) returns (r: EndResult)
      requires Distinct() && k in instruments && instruments[k] == inst
      modifies inst
      ensures Distinct() && State() == old(State()).Put(k, End(old(inst.State()), id, anchor))
      ensures inst.State() == End(old(inst.State()), id, anchor)
      ensures r == Committed <==> Commits(old(inst.State()), id, anchor)
    {
      r := inst.EndSnapshot(id, anchor);
      OneChanged(k);
    }

    method ApplySnapshotEnd(k: Key, id: nat, anchor: nat) returns (evs: seq<Event>)
      requires Valid()
      modifies this, instruments.Values
      ensures Distinct() && Grown() && HandlesEnd(old(State()), k, id, anchor, State(), evs)
    {
      ghost var s := State();
      if k !in instruments || instruments[k].openSnapshot.None? {
        DroppedEnd(s, k, id, anchor);
        return [];
      }
      var inst := instruments[k];
      assert KeyOk(s, k);
      EndOk(inst.State(), id, anchor);
      var r := EndShadow(k, inst, id, anchor);
      if r != Committed {
        DroppedEnd(s, k, id, anchor);
        return [];
      }
      CommittedCore(s, k, inst.State());
      evs := ReplayCommitted(k, inst, id, anchor, s);
    }

    /** The buffer replayed on the book an end has just committed. */
    method ReplayCommitted(k: Key, inst: Instrument, id: nat, anchor: nat, ghost s: Shard) returns (evs: seq<Event>)
      requires Distinct() && k in instruments && instruments[k] == inst
      requires k in s.insts && Commits(s.insts[k], id, anchor) && inst.State() == Commit(s.insts[k])
      requires State() == s.Put(k, inst.State()) && InstOk(inst.State())
      requires Core(TakeBuffer(State(), k)) && InBudget(TakeBuffer(State(), k))
      modifies this, instruments.Values
      ensures Valid() && Grown() && HandlesEnd(s, k, id, anchor, State(), evs)
    {
      var replayed;
      ghost var held;
      replayed, held := ReplayBuffer(k, inst);
      evs := [AppliedSnapshot(id, anchor)] + replayed;
      CommittedEnd(s, k, id, anchor, held, replayed, State());
    }

    // ---- resets and reference data ----

    static method FilterNewer(buf: seq<Delta>, anchor: nat) returns (kept: seq<Delta>)
      ensures kept == Newer(buf, anchor)
    {
      kept := [];
      for j := 0 to |buf|
        invariant kept + Newer(buf[j..], anchor) == Newer(buf, anchor)
      {
        ghost var rest := Newer(buf[j + 1..], anchor);
        assert buf[j..][1..] == buf[j + 1..];
        if buf[j].mseq > anchor {
          assert kept + ([buf[j]] + rest) == kept + [buf[j]] + rest;
          kept := kept + [buf[j]];
        }
      }
      assert kept + [] == kept;
    }

    method ResetInstrument(k: Key, anchor: nat)
      requires Distinct()
      modifies this`instruments, instruments.Values
      ensures Distinct() && Grown() && Insts() == old(Insts())[k := Reset(anchor)]
    {
      var inst := InstrumentFor(k);
      label L:
      ghost var i := inst.State();
      inst.Reset(anchor);
      ghost var j := inst.State();
      assert Insts() == old@L(Insts())[k := j] by { OneChanged@L(k); }
      UpdateTwice(old(Insts()), k, i, j);
    }

    /** Drop the buffered deltas at `k` a reset supersedes, keeping the total in step. */
    method FilterBuffer(k: Key, anchor: nat)
      modifies this`deltaBuf, this`bufferedN
      ensures var buf := old(State()).Buf(k);
              && deltaBuf == (if Newer(buf, anchor) == [] then old(deltaBuf) - {k} else old(deltaBuf)[k := Newer(buf, anchor)])
              && bufferedN == old(bufferedN) - (|buf| - |Newer(buf, anchor)|)
    {
      var buf := if k in deltaBuf then deltaBuf[k] else [];
      var kept := FilterNewer(buf, anchor);
      bufferedN := bufferedN - (|buf| - |kept|);
      if |kept| == 0 {
        deltaBuf := deltaBuf - {k};
      } else {
        deltaBuf := deltaBuf[k := kept];
      }
    }

    /** A cleared book cannot be crossed. */
    method Uncross(k: Key)
      modifies this`crossed, this`touched
      ensures crossed == old(crossed) - {k} && touched == old(touched) - {k}
    {
      crossed, touched := crossed - {k}, touched - {k};
    }

    /** The shard's own state of an instrument that is being reset. */
    method ForgetBook(k: Key, anchor: nat)
      modifies this`deltaBuf, this`bufferedN, this`crossed, this`touched
      ensures var buf := old(State()).Buf(k);
              && deltaBuf == (if Newer(buf, anchor) == [] then old(deltaBuf) - {k} else old(deltaBuf)[k := Newer(buf, anchor)])
              && bufferedN == old(bufferedN) - (|buf| - |Newer(buf, anchor)|)
      ensures crossed == old(crossed) - {k} && touched == old(touched) - {k}
    {
      FilterBuffer(k, anchor);
      Uncross(k);
    }

    method ApplyInstrumentReset(k: Key, anchor: nat)
      requires Distinct()
      modifies this, instruments.Values
      ensures Distinct() && Grown() && State() == HandleReset(old(State()), k, anchor)
    {
      ResetInstrument(k, anchor);
      ForgetBook(k, anchor);
    }

    method ApplyInstrumentDefinition(k: Key, manifestSeq: nat, sourceId: nat)
      requires Distinct()
      modifies this
      ensures Distinct() && Grown() && State() == HandleDefinition(old(State()), k, manifestSeq, sourceId)
    {
      assert At(k) == State().InstFor(k);
      refdata := refdata[k := Def(manifestSeq, sourceId, None)];
      var inst := InstrumentFor(k);
    }

    method ApplyStrikeInterval(k: Key, strike: Strike)
      modifies this`refdata
      ensures State() == HandleStrike(old(State()), k, strike)
    {
      if k in refdata {
        var def := refdata[k];
        refdata := refdata[k := def.(strike := Some(strike))];
      }
    }

    // ---- crossed-book monitoring ----

    method EvaluateCrossed(k: Key)
      requires k in instruments
      modifies this`crossed
      ensures crossed == Reevaluate(old(State()), {k})
    {
      var now := instruments[k].Crossed();
      if now {
        crossed := crossed + {k};
      } else {
        crossed := crossed - {k};
      }
    }

    method NoteConsistencyPoint(k: Key, evs: seq<Event>)
      modifies this`crossed, this`touched
      ensures State() == Note(old(State()), k, evs)
    {
      var applied := false;
      for j := 0 to |evs|
        invariant applied <==> exists i :: 0 <= i < j && (evs[i].AppliedDelta? || evs[i].AppliedSnapshot?)
      {
        if evs[j].AppliedDelta? || evs[j].AppliedSnapshot? {
          applied := true;
        }
      }
      assert applied <==> ChangesBook(evs);
      if !applied || k !in instruments {
        return;
      }
      if sawBatchBoundary {
        touched := touched + {k};
        return;
      }
      EvaluateCrossed(k);
    }

    method Reconsider(k: Key)
      modifies this`crossed
      ensures crossed == Reevaluate(old(State()), {k})
    {
      if k in instruments {
        EvaluateCrossed(k);
      }
    }

    method ApplyBatchBoundary()
      modifies this`sawBatchBoundary, this`crossed, this`touched
      ensures State() == HandleBoundary(old(State()))
    {
      sawBatchBoundary := true;
      ghost var s, done := State(), {};
      assert crossed == Reevaluate(s, done);
      while touched != {}
        invariant touched == s.touched - done && done <= s.touched
        invariant State() == s.(touched := touched, crossed := Reevaluate(s, done))
        decreases touched
      {
        var k :| k in touched;
        ReevaluateMore(s, done, State(), k);
        Reconsider(k);
        touched := touched - {k};
        done := done + {k};
      }
      assert done == s.touched;
    }

    // ---- wipes ----

    method DropInstrument(k: Key)
      modifies this`instruments
      ensures instruments == old(instruments) - {k} && Insts() == old(Insts()) - {k}
    {
      instruments := instruments - {k};
      Restricted({k});
    }

    /** Forget everything kept under `k`. */
    method Drop(k: Key)
      modifies this`instruments, this`refdata, this`deltaBuf, this`bufferedN, this`crossed, this`touched
      ensures instruments == old(instruments) - {k} && Insts() == old(Insts()) - {k}
      ensures refdata == old(refdata) - {k} && deltaBuf == old(deltaBuf) - {k}
      ensures bufferedN == old(bufferedN) - (if k in old(deltaBuf) then |old(deltaBuf)[k]| else 0)
      ensures crossed == old(crossed) - {k} && touched == old(touched) - {k}
    {
      DropInstrument(k);
      DropRest(k);
    }

    method DropRest(k: Key)
      modifies this`refdata, this`deltaBuf, this`bufferedN, this`crossed, this`touched
      ensures refdata == old(refdata) - {k} && deltaBuf == old(deltaBuf) - {k}
      ensures bufferedN == old(bufferedN) - (if k in old(deltaBuf) then |old(deltaBuf)[k]| else 0)
      ensures crossed == old(crossed) - {k} && touched == old(touched) - {k}
    {
      bufferedN := bufferedN - (if k in deltaBuf then |deltaBuf[k]| else 0);
      refdata, deltaBuf, crossed, touched := refdata - {k}, deltaBuf - {k}, crossed - {k}, touched - {k};
    }

    /** Drop the instruments that fell out of the manifest, with one generation of
        grace. */
    method PruneManifest(newSeq: nat)
      requires Distinct()
      modifies this`instruments, this`refdata, this`deltaBuf, this`bufferedN, this`crossed, this`touched
      ensures Distinct() && Shrunk() && State() == HandlePrune(old(State()), newSeq)
    {
      if newSeq <= 1 {
        return;
      }
      var cutoff := newSeq - 1;
      ghost var s, done := State(), {};
      assert DropKeys(s, {}) == s;
      var todo := refdata.Keys;
      while todo != {}
        invariant todo <= refdata.Keys && done !! todo
        invariant forall k :: k in s.refdata && k !in todo ==> (k in done <==> k in OutOfManifest(s, newSeq))
        invariant done <= s.refdata.Keys && State() == DropKeys(s, done)
        invariant Distinct() && Shrunk()
        decreases todo
      {
        var k :| k in todo;
        todo := todo - {k};
        if refdata[k].manifestSeq < cutoff {
          ghost var t := State();
          DropMore(s, done, k);
          Drop(k);
          DroppedParts(t, State(), k);
          done := done + {k};
        }
      }
      assert done == OutOfManifest(s, newSeq);
    }

    method DropChannelBuffers(ch: nat)
      modifies this`deltaBuf, this`bufferedN
      ensures deltaBuf == old(deltaBuf) - (set k | k in old(deltaBuf) && k.ch == ch)
      ensures bufferedN == old(bufferedN) - Total(map k | k in old(deltaBuf) && k.ch == ch :: old(deltaBuf)[k])
    {
      ghost var bufs := deltaBuf;
      ghost var gone: map<Key, seq<Delta>> := map[];
      var todo := deltaBuf.Keys;
      while todo != {}
        invariant todo <= deltaBuf.Keys <= bufs.Keys && gone.Keys !! todo
        invariant deltaBuf == bufs - gone.Keys
        invariant forall k :: k in gone <==> k in bufs && k !in todo && k.ch == ch
        invariant forall k :: k in gone ==> gone[k] == bufs[k]
        invariant bufferedN == old(bufferedN) - Total(gone)
        decreases todo
      {
        var k :| k in todo;
        todo := todo - {k};
        if k.ch == ch {
          TotalUpdate(gone, k, deltaBuf[k]);
          assert gone - {k} == gone;
          bufferedN := bufferedN - |deltaBuf[k]|;
          gone := gone[k := deltaBuf[k]];
          deltaBuf := deltaBuf - {k};
        }
      }
      assert gone == map k | k in bufs && k.ch == ch :: bufs[k];
      assert gone.Keys == set k | k in bufs && k.ch == ch;
    }

    method ForgetInstruments(ch: nat)
      requires Distinct()
      modifies this`instruments
      ensures Distinct() && Shrunk() && Insts() == old(Insts()) - set k | k in old(Insts()) && k.ch == ch
    {
      var left := OtherChannels(instruments, ch);
      Keep(left, set k | k in instruments && k.ch == ch);
    }

    method Keep(left: map<Key, Instrument>, ghost ks: set<Key>)
      requires Distinct() && left == instruments - ks
      modifies this`instruments
      ensures Distinct() && Shrunk() && Insts() == old(Insts()) - ks
    {
      instruments := left;
      Restricted(ks);
    }

    /** What the channel's instruments leave behind in the shard's other maps. */
    method ForgetChannel(ch: nat)
      modifies this`refdata, this`deltaBuf, this`bufferedN, this`crossed, this`touched, this`sawBatchBoundary
      ensures refdata == old(refdata) - (set k | k in old(refdata) && k.ch == ch)
      ensures deltaBuf == old(deltaBuf) - (set k | k in old(deltaBuf) && k.ch == ch)
      ensures bufferedN == old(bufferedN) - Total(map k | k in old(deltaBuf) && k.ch == ch :: old(deltaBuf)[k])
      ensures crossed == (set k | k in old(crossed) && k.ch != ch) && touched == set k | k in old(touched) && k.ch != ch
      ensures !sawBatchBoundary
    {
      refdata := OtherChannels(refdata, ch);
      DropChannelBuffers(ch);
      crossed := OtherChannelKeys(crossed, ch);
      touched := OtherChannelKeys(touched, ch);
      sawBatchBoundary := false;
    }

    method ResetChannel(ch: nat)
      requires Distinct()
      modifies this
      ensures Distinct() && Shrunk() && State() == HandleWipe(old(State()), ch)
    {
      ghost var s := State();
      ForgetInstruments(ch);
      ForgetChannel(ch);
      WipedParts(s, State(), ch);
    }

    method ClearShadows()
      requires Distinct()
      modifies instruments.Values
      ensures State() == HandleClearShadows(old(State()))
    {
      var todo := instruments.Keys;
      while todo != {}
        invariant todo <= instruments.Keys
        invariant forall k :: k in instruments ==>
          instruments[k].State() == if k in todo then old(instruments[k].State())
                                    else old(instruments[k].State()).(shadow := None)
        decreases todo
      {
        var k :| k in todo;
        todo := todo - {k};
        instruments[k].openSnapshot := None;
      }
      assert Insts() == HandleClearShadows(old(State())).insts;
    }

    // ---- the inbox ----

    method ReceiveRecord(rec: Record) returns (evs: seq<Event>)
      requires Valid()
      modifies this, instruments.Values
      ensures Distinct() && Grown() && HandlesRecord(old(State()), rec.At(), rec, State(), evs)
    {
      var k := rec.At();
      match rec.body {
        case BookDelta(_, _) =>
          evs := ApplyDelta(k, rec.AsDelta());
          NoteConsistencyPoint(k, evs);
        case SnapshotEnd(id, anchor) =>
          evs := ApplySnapshotEnd(k, id, anchor);
          NoteConsistencyPoint(k, evs);
        case _ =>
          evs := ReceivePlain(k, rec.body);
      }
    }

    method ReceivePlain(k: Key, body: Body) returns (evs: seq<Event>)
      requires Distinct() && !body.BookDelta? && !body.SnapshotEnd?
      modifies this, instruments.Values
      ensures Distinct() && Grown() && State() == Plain(old(State()), k, body) && evs == PlainEvents(body)
    {
      evs := [];
      match body {
        case ResetBook(anchor) =>
          ApplyInstrumentReset(k, anchor);
          evs := [InstrumentReset(anchor)];
        case TradePrint =>
          evs := [Trade];
        case Definition(manifestSeq, sourceId) =>
          ApplyInstrumentDefinition(k, manifestSeq, sourceId);
          evs := [InstrumentDefinition];
        case StrikeInterval(_, strike) => ApplyStrikeInterval(k, strike);
        case SnapshotBegin(h) => ApplySnapshotBegin(k, h);
        case SnapshotLevel(id, level) => ApplySnapshotLevel(k, id, level);
        case Boundary =>
          ApplyBatchBoundary();
          evs := [BatchBoundary];
        case _ =>
      }
    }

    /** One message off the inbox. */
    method Receive(m: Message) returns (evs: seq<Event>)
      requires Valid()
      modifies this, instruments.Values
      ensures Valid() && Within() && Handles(old(State()), m, State(), evs)
    {
      ghost var s := State();
      evs := [];
      match m {
        case Rec(rec) => evs := ReceiveRecord(rec);
        case Wipe(ch) => ResetChannel(ch);
        case Fence =>
        case Prune(seqNo) => PruneManifest(seqNo);
        case ClearShadows => ClearShadows();
      }
      CoreKept(s, m, State(), evs);
    }

    /** A shard's life: the inbox, message by message. */
    method Run(inbox: seq<Message>) returns (events: seq<seq<Event>>, ghost states: seq<Shard>)
      requires Valid() && State() == NewShard(maxBuffered)
      modifies this, instruments.Values
      ensures Valid() && CrossedIndex.IsRun(states, inbox, events, maxBuffered) && State() == states[|inbox|]
    {
      events, states := [], [State()];
      for n := 0 to |inbox|
        invariant Valid() && Within() && CrossedIndex.IsRun(states, inbox[..n], events, maxBuffered) && State() == states[n]
      {
        var evs := Receive(inbox[n]);
        RunsOn(states, inbox, events, n, State(), evs, maxBuffered);
        events, states := events + [evs], states + [State()];
      }
      assert inbox[..|inbox|] == inbox;
    }
  }
}
