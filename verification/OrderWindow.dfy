/** What the Market-by-Order bot does with deltas that arrive early, late or twice, and
    what a snapshot's end makes of the deltas buffered behind it. */
module OrderWindow {
  import opened Wrappers
  import InstrumentSpec
  import opened ReorderWindow
  import O = OrderSpec
  import opened B = OrderBooks

  const WIDTH := 16

  /** Deltas arriving in this order, until one demotes. */
  function Arriving(i: O.OrderInst, ds: seq<Delta>): O.OrderInst
    decreases |ds|
  {
    if ds == [] || !i.status.Ready? then i else Arriving(O.Deliver(i, ds[0]).inst, ds[1..])
  }

  function SeqsOf(ds: seq<Delta>): set<nat> {
    set d | d in ds :: d.piSeq
  }

  /** What has been seen beyond the first seq missing. */
  function Ahead(n: nat, seen: set<nat>): set<nat> {
    set s | s in seen && s > FirstMissing(n, seen)
  }

  /** A seq the window has room for: no more than its width ahead of the first one
      missing, and no more than that many held, `stale` of them for nothing. */
  predicate Fits(n: nat, seen: set<nat>, stale: nat, s: nat) {
    && s <= FirstMissing(n, seen) + WIDTH
    && (s > FirstMissing(n, seen) ==> stale + |Ahead(n, seen + {s})| <= WIDTH)
  }

  predicate AllFit(n: nat, seen: set<nat>, stale: nat, ds: seq<Delta>)
    decreases |ds|
  {
    ds == [] || (Fits(n, seen, stale, ds[0].piSeq) && AllFit(n, seen + {ds[0].piSeq}, stale, ds[1..]))
  }

  /** Everything below the first missing seq is applied, everything seen above it is
      held, and so is what can never be drained. */
  ghost predicate Tracks(i: O.OrderInst, n: nat, seen: set<nat>, stale: set<nat>) {
    && i.status.Ready? && Keyed(i) && n <= i.lastSeq
    && i.lastSeq + 1 == FirstMissing(n, seen)
    && (forall s :: s in stale ==> s <= n + 1)
    && (forall s :: s in i.pending <==> s in stale || (s in seen && s > i.lastSeq))
  }

  // ---- one arrival ----

  lemma {:induction false} DrainTakes(i: O.OrderInst)
    requires Keyed(i)
    ensures var j := O.Drain(i);
            && Keyed(j) && j.status == i.status && j.lastSeq >= i.lastSeq && j.lastSeq + 1 !in j.pending
            && (forall s :: s in j.pending <==> s in i.pending && !(i.lastSeq < s <= j.lastSeq))
            && (forall s :: i.lastSeq < s <= j.lastSeq ==> s in i.pending)
    decreases i.pending.Keys
  {
    if i.lastSeq + 1 in i.pending {
      DrainTakes(O.DrainStep(i));
    }
  }

  lemma HeldCount(i: O.OrderInst, n: nat, seen: set<nat>, stale: set<nat>, d: Delta)
    requires Tracks(i, n, seen, stale) && d.piSeq > i.lastSeq + 1
    ensures |i.pending[d.piSeq := d]| == |stale| + |Ahead(n, seen + {d.piSeq})|
  {
    StillMissing(n, seen, d.piSeq);
    var ahead, window := Ahead(n, seen + {d.piSeq}), i.pending[d.piSeq := d];
    forall s ensures s in window.Keys <==> s in stale + ahead {
      if s == i.lastSeq + 1 {
        assert s !in seen;
      }
    }
    assert window.Keys == stale + ahead;
    assert stale * ahead == {};
    assert |window| == |window.Keys|;
  }

  lemma EarlyTracks(i: O.OrderInst, n: nat, seen: set<nat>, stale: set<nat>, d: Delta)
    requires Tracks(i, n, seen, stale) && d.piSeq > i.lastSeq + 1
    ensures var o := O.Deliver(i, d);
            && (o.inst.status.Ready? <==> Fits(n, seen, |stale|, d.piSeq))
            && (o.inst.status.Ready? ==> Tracks(o.inst, n, seen + {d.piSeq}, stale))
  {
    HeldCount(i, n, seen, stale, d);
    StillMissing(n, seen, d.piSeq);
  }

  lemma NextTracks(i: O.OrderInst, n: nat, seen: set<nat>, stale: set<nat>, d: Delta)
    requires Tracks(i, n, seen, stale) && d.piSeq == i.lastSeq + 1
    ensures Tracks(O.Deliver(i, d).inst, n, seen + {d.piSeq}, stale)
  {
    var m := O.ApplyOne(i, d);
    var j := O.Drain(m);
    DrainTakes(m);
    forall x | n + 1 <= x < j.lastSeq + 1 ensures x in seen + {d.piSeq} {
      if x < i.lastSeq + 1 {
        SkipLostAll(n + 1, seen, x);
      }
    }
    SkipLostIs(n + 1, seen + {d.piSeq}, j.lastSeq + 1);
  }

  lemma ArrivalTracks(i: O.OrderInst, n: nat, seen: set<nat>, stale: set<nat>, d: Delta)
    requires Tracks(i, n, seen, stale)
    ensures var o := O.Deliver(i, d);
            && (o.inst.status.Ready? <==> Fits(n, seen, |stale|, d.piSeq))
            && (o.inst.status.Ready? ==> Tracks(o.inst, n, seen + {d.piSeq}, stale))
  {
    if d.piSeq <= i.lastSeq {
      StillMissing(n, seen, d.piSeq);
    } else if d.piSeq == i.lastSeq + 1 {
      NextTracks(i, n, seen, stale, d);
    } else {
      EarlyTracks(i, n, seen, stale, d);
    }
  }

  // ---- whole arrival orders ----

  lemma {:induction false} ArrivingTracks(i: O.OrderInst, ds: seq<Delta>, n: nat, seen: set<nat>, stale: set<nat>)
    requires Tracks(i, n, seen, stale)
    ensures Arriving(i, ds).status.Ready? <==> AllFit(n, seen, |stale|, ds)
    ensures AllFit(n, seen, |stale|, ds) ==> Tracks(Arriving(i, ds), n, seen + SeqsOf(ds), stale)
    decreases |ds|
  {
    if ds == [] {
      assert seen + SeqsOf(ds) == seen;
    } else {
      var d := ds[0];
      ArrivalTracks(i, n, seen, stale, d);
      var j := O.Deliver(i, d).inst;
      if j.status.Ready? {
        ArrivingTracks(j, ds[1..], n, seen + {d.piSeq}, stale);
        assert ds == [d] + ds[1..];
        assert seen + {d.piSeq} + SeqsOf(ds[1..]) == seen + SeqsOf(ds);
      }
    }
  }

  function BeyondNext(i: O.OrderInst): set<nat> {
    set s | s in i.pending && s > i.lastSeq + 1
  }

  function UpToNext(i: O.OrderInst): set<nat> {
    set s | s in i.pending && s <= i.lastSeq + 1
  }

  /** Any ready instrument, whatever an earlier demotion left in its window, and any
      arrivals, with duplicates. It stays ready exactly when each delta has room as it
      arrives. Then it has applied everything below the first seq never seen, and holds
      what was seen beyond it along with what was left from before. */
  lemma WindowTracks(i: O.OrderInst, ds: seq<Delta>)
    requires i.status.Ready? && Keyed(i)
    ensures var n, seen, stale := i.lastSeq, BeyondNext(i), UpToNext(i);
            var j := Arriving(i, ds);
            && (j.status.Ready? <==> AllFit(n, seen, |stale|, ds))
            && (j.status.Ready? ==>
                  && j.lastSeq + 1 == FirstMissing(n, seen + SeqsOf(ds))
                  && forall s :: s in j.pending <==> s in stale || (s in seen + SeqsOf(ds) && s > j.lastSeq))
  {
    SkipLostIs(i.lastSeq + 1, BeyondNext(i), i.lastSeq + 1);
    assert Tracks(i, i.lastSeq, BeyondNext(i), UpToNext(i));
    ArrivingTracks(i, ds, i.lastSeq, BeyondNext(i), UpToNext(i));
  }

  /** No delta is more than the window's width ahead of the first seq missing then. */
  predicate AllNear(n: nat, seen: set<nat>, ds: seq<Delta>)
    decreases |ds|
  {
    ds == [] || (ds[0].piSeq <= FirstMissing(n, seen) + WIDTH && AllNear(n, seen + {ds[0].piSeq}, ds[1..]))
  }

  predicate SeenNear(n: nat, seen: set<nat>) {
    forall s :: s in seen ==> s <= FirstMissing(n, seen) + WIDTH
  }

  lemma {:induction false} Interval(lo: nat, width: nat, ss: set<nat>)
    requires forall s :: s in ss ==> lo < s <= lo + width
    ensures |ss| <= width
    decreases width
  {
    if width == 0 {
      assert forall s :: s !in ss;
      assert ss == {};
    } else {
      Interval(lo, width - 1, ss - {lo + width});
    }
  }

  lemma FirstMissingRises(n: nat, seen: set<nat>, s: nat)
    ensures FirstMissing(n, seen + {s}) >= FirstMissing(n, seen)
  {
    if s != FirstMissing(n, seen) {
      StillMissing(n, seen, s);
    } else if FirstMissing(n, seen + {s}) < s {
      SkipLostAll(n + 1, seen, FirstMissing(n, seen + {s}));
      assert false;
    }
  }

  lemma NearStays(n: nat, seen: set<nat>, s: nat)
    requires SeenNear(n, seen) && s <= FirstMissing(n, seen) + WIDTH
    ensures SeenNear(n, seen + {s}) && |Ahead(n, seen + {s})| <= WIDTH
  {
    FirstMissingRises(n, seen, s);
    Interval(FirstMissing(n, seen + {s}), WIDTH, Ahead(n, seen + {s}));
  }

  /** With nothing left over, the count test never fires before the distance test. */
  lemma {:induction false} FitsIsNear(n: nat, seen: set<nat>, ds: seq<Delta>)
    requires SeenNear(n, seen)
    ensures AllFit(n, seen, 0, ds) <==> AllNear(n, seen, ds)
    decreases |ds|
  {
    if ds != [] && ds[0].piSeq <= FirstMissing(n, seen) + WIDTH {
      NearStays(n, seen, ds[0].piSeq);
      FitsIsNear(n, seen + {ds[0].piSeq}, ds[1..]);
    }
  }

  /** From an empty window an instrument is demoted exactly by an arrival more than 16
      ahead of the first seq still missing. */
  lemma DemotedExactlyByDistance(i: O.OrderInst, ds: seq<Delta>)
    requires i.status.Ready? && i.pending == map[]
    ensures var j := Arriving(i, ds);
            && (j.status.Ready? <==> AllNear(i.lastSeq, {}, ds))
            && (j.status.Ready? ==>
                  && j.lastSeq + 1 == FirstMissing(i.lastSeq, SeqsOf(ds))
                  && forall s :: s in j.pending <==> s in SeqsOf(ds) && s > j.lastSeq)
  {
    WindowTracks(i, ds);
    assert BeyondNext(i) == {} && UpToNext(i) == {};
    assert {} + SeqsOf(ds) == SeqsOf(ds);
    FitsIsNear(i.lastSeq, {}, ds);
  }

  // ---- the book ----

  /** A delta behind `n`, or the publisher's own at its seq. */
  predicate IsOf(script: seq<Delta>, n: nat, d: Delta) {
    d.piSeq <= n || (d.piSeq <= n + |script| && d == script[d.piSeq - n - 1])
  }

  ghost function Scripted(script: seq<Delta>, n: nat): iset<Delta> {
    iset d | IsOf(script, n, d)
  }

  /** `i` is `base` with a run of deltas of `from` behind `n`. */
  ghost predicate Grown(i: O.OrderInst, base: O.Orders, n: nat, from: iset<Delta>) {
    Sourced(i, from) && exists ds :: BuiltFrom(i, base, n, ds) && AllFrom(ds, from)
  }

  lemma {:induction false} ArrivingGrows(i: O.OrderInst, ds: seq<Delta>, base: O.Orders, n: nat, from: iset<Delta>)
    requires Grown(i, base, n, from) && AllFrom(ds, from)
    ensures Grown(Arriving(i, ds), base, n, from)
    decreases |ds|
  {
    if ds != [] && i.status.Ready? {
      assert ds[0] in ds && AllFrom(ds[1..], from);
      var done :| BuiltFrom(i, base, n, done) && AllFrom(done, from);
      var o := O.Deliver(i, ds[0]);
      DeliverBuilds(i, ds[0], base, n, done, from);
      assert AllFrom(done + o.applied, from);
      ArrivingGrows(o.inst, ds[1..], base, n, from);
    }
  }

  lemma GrownToTheEnd(i: O.OrderInst, base: O.Orders, n: nat, script: seq<Delta>)
    requires Grown(i, base, n, Scripted(script, n)) && i.lastSeq == n + |script|
    ensures i.book == Folded(base, script)
  {
    var ds :| BuiltFrom(i, base, n, ds) && AllFrom(ds, Scripted(script, n));
    forall j | 0 <= j < |ds| ensures ds[j] == script[j] {
      assert ds[j] in ds && IsOf(script, n, ds[j]);
    }
    assert ds == script;
  }

  lemma AllScriptSeen(n: nat, script: seq<Delta>, ds: seq<Delta>)
    requires Contiguous(n, script) && forall d :: d in script ==> d in ds
    requires forall d :: d in ds ==> IsOf(script, n, d)
    ensures FirstMissing(n, SeqsOf(ds)) == n + |script| + 1
  {
    forall x | n + 1 <= x < n + |script| + 1 ensures x in SeqsOf(ds) {
      assert script[x - n - 1] in script;
    }
    SkipLostIs(n + 1, SeqsOf(ds), n + |script| + 1);
  }

  /** The deltas behind the tracker in any order of arrival, with duplicates and old
      ones among them, none too far ahead: the instrument serves at the last of them,
      its window is empty, and its book is the one they give in order. */
  lemma ReorderingIsRepaired(i: O.OrderInst, ds: seq<Delta>, script: seq<Delta>)
    requires i.status.Ready? && i.pending == map[] && Contiguous(i.lastSeq, script)
    requires (forall d :: d in ds ==> IsOf(script, i.lastSeq, d)) && forall d :: d in script ==> d in ds
    requires AllNear(i.lastSeq, {}, ds)
    ensures var j := Arriving(i, ds);
            j.status.Ready? && j.lastSeq == i.lastSeq + |script| && j.pending == map[] && j.book == Folded(i.book, script)
  {
    var n, j := i.lastSeq, Arriving(i, ds);
    DemotedExactlyByDistance(i, ds);
    AllScriptSeen(n, script, ds);
    assert BuiltFrom(i, i.book, n, []) && AllFrom([], Scripted(script, n));
    ArrivingGrows(i, ds, i.book, n, Scripted(script, n));
    GrownToTheEnd(j, i.book, n, script);
    assert forall s :: s !in j.pending;
  }

  // ---- a window with leftovers ----

  lemma {:induction false} RunAheadFits(n: nat, seen: set<nat>, stale: nat, ds: seq<Delta>)
    requires ds != [] && forall s :: s in seen <==> n + 1 < s <= n + 1 + |seen|
    requires forall j :: 0 <= j < |ds| ==> ds[j].piSeq == n + 2 + |seen| + j
    ensures AllFit(n, seen, stale, ds) <==> stale + |seen| + |ds| <= WIDTH
    decreases |ds|
  {
    var s := ds[0].piSeq;
    SkipLostIs(n + 1, seen, n + 1);
    StillMissing(n, seen, s);
    assert s !in seen && Ahead(n, seen + {s}) == seen + {s};
    assert ds[1..] == [] ==> AllFit(n, seen + {s}, stale, ds[1..]);
    if ds[1..] != [] {
      RunAheadFits(n, seen + {s}, stale, ds[1..]);
    }
  }

  /** Each delta left in the window from before a commit takes one place for good: with
      the next delta missing, the ones behind it fit exactly while they and the leftovers
      number at most 16, though all of them may be within 16 of it. */
  lemma LeftoversNarrowTheWindow(i: O.OrderInst, ds: seq<Delta>)
    requires i.status.Ready? && Keyed(i) && ds != [] && forall s :: s in i.pending ==> s <= i.lastSeq + 1
    requires forall j :: 0 <= j < |ds| ==> ds[j].piSeq == i.lastSeq + 2 + j
    ensures Arriving(i, ds).status.Ready? <==> |i.pending| + |ds| <= 16
  {
    WindowTracks(i, ds);
    assert UpToNext(i) == i.pending.Keys && BeyondNext(i) == {};
    RunAheadFits(i.lastSeq, {}, |i.pending|, ds);
  }

  /** How a delta is left over: replay goes on behind a demotion, so 7 is held for a group
      at 5 that 30 has already demoted, and is still held when a group at 10 commits. */
  lemma ReplayLeavesADelta(op: O.Op)
    ensures var early, late := O.OrderDelta(101, 30, op), O.OrderDelta(102, 7, op);
            var first, second := O.OrderHeader(1, 100, 0, 5), O.OrderHeader(2, 200, 0, 10);
            var i := O.Ended(O.Begun(O.Share(None, Some([early, late])), first), 1, 100).inst;
            && i.Some? && i.value.status.Gap? && i.value.pending == map[7 := late]
            && var j := O.Ended(O.Begun(O.Share(i, None), second), 2, 200).inst;
               j.Some? && j.value.status.Ready? && j.value.lastSeq == 10 && j.value.pending == map[7 := late]
  {
    var early, late := O.OrderDelta(101, 30, op), O.OrderDelta(102, 7, op);
    var h := O.OrderHeader(1, 100, 0, 5);
    var c := O.Commit(O.BeginGroup(O.NEW, h));
    var g := c.(status := InstrumentSpec.Gap);
    assert [early, late][1..] == [late] && [late][1..] == [];
    assert |map[30 := early]| == 1 && |map[7 := late]| == 1;
    assert O.Deliver(c, early).inst == g;
    assert O.Deliver(g, late).inst == g.(pending := map[7 := late]);
    assert O.Replay(g, [late]).inst == O.Replay(g.(pending := map[7 := late]), []).inst;
  }

  // ---- the shard's inbox ----

  /** The shard after these deltas of one instrument. */
  function Handed(s: O.OrderShard, k: Key, ds: seq<Delta>): O.OrderShard
    decreases |ds|
  {
    if ds == [] then s else Handed(O.HandleRecord(s, O.OrderChange(k.ch, k.id, 0, ds[0])), k, ds[1..])
  }

  /** Whatever a demoted instrument is sent later, it keeps as it is. */
  lemma {:induction false} HandedIsArriving(s: O.OrderShard, k: Key, ds: seq<Delta>)
    requires k in s.insts
    ensures k in Handed(s, k, ds).insts && Handed(s, k, ds).insts[k] == Arriving(s.insts[k], ds)
    decreases |ds|
  {
    if ds != [] {
      var t := O.HandleRecord(s, O.OrderChange(k.ch, k.id, 0, ds[0]));
      HandedIsArriving(t, k, ds[1..]);
      if !s.insts[k].status.Ready? {
        assert Arriving(t.insts[k], ds[1..]) == t.insts[k];
      }
    }
  }

  /** The shard's inbox holds the deltas behind a serving instrument's tracker in some
      order of arrival: it serves at the last of them with the book they give in order. */
  lemma ShardRepairsReordering(s: O.OrderShard, k: Key, ds: seq<Delta>, script: seq<Delta>)
    requires k in s.insts && s.insts[k].status.Ready? && s.insts[k].pending == map[]
    requires Contiguous(s.insts[k].lastSeq, script)
    requires (forall d :: d in ds ==> IsOf(script, s.insts[k].lastSeq, d)) && forall d :: d in script ==> d in ds
    requires AllNear(s.insts[k].lastSeq, {}, ds)
    ensures k in Handed(s, k, ds).insts
    ensures var i, j := s.insts[k], Handed(s, k, ds).insts[k];
            j.status.Ready? && j.lastSeq == i.lastSeq + |script| && j.pending == map[] && j.book == Folded(i.book, script)
  {
    HandedIsArriving(s, k, ds);
    ReorderingIsRepaired(s.insts[k], ds, script);
  }

  // ---- leaving service ----

  /** The only ways out of service: a wipe of its channel, a reset of its own, or a delta
      of its own that the window has no room for. A serving instrument holds no shadow. */
  lemma StopsServingExactly(s: O.OrderShard, m: Message, k: Key)
    requires k in s.insts && s.insts[k].status.Ready? && s.insts[k].shadow.None?
    ensures var i := s.insts[k];
            !Step(s, m).InstFor(k).status.Ready? <==>
            match m
            case Wipe(ch) => ch == k.ch
            case Drop => false
            case Rec(rec) =>
              && rec.At() == k
              && (|| rec.BookReset?
                  || (&& rec.OrderChange? && rec.delta.piSeq > i.lastSeq + 1
                      && (rec.delta.piSeq > i.lastSeq + 17 || |i.pending.Keys + {rec.delta.piSeq}| > 16)))
  {
    if m.Rec? {
      if m.rec.OrderChange? && m.rec.At() == k {
        var d, i := m.rec.delta, s.insts[k];
        DrainShadow(O.ApplyOne(i, d));
        assert i.pending[d.piSeq := d].Keys == i.pending.Keys + {d.piSeq};
        assert |i.pending[d.piSeq := d]| == |i.pending[d.piSeq := d].Keys|;
      } else {
        OtherRecordServes(s, m.rec, k);
      }
    }
  }

  /** A delta that takes its instrument out of service drops the window, and changes
      nothing else of the instrument. */
  lemma DemotionExactly(s: O.OrderShard, k: Key, resetCount: nat, d: Delta)
    requires k in s.insts && s.insts[k].status.Ready?
    ensures var t := O.HandleRecord(s, O.OrderChange(k.ch, k.id, resetCount, d));
            && k in t.insts
            && (!t.insts[k].status.Ready? ==>
                  t.insts[k] == s.insts[k].(status := InstrumentSpec.Gap, pending := map[]))
            && forall other :: other != k ==> t.ShareOf(other) == s.ShareOf(other)
  {
    DrainShadow(O.ApplyOne(s.insts[k], d));
  }

  lemma OtherRecordServes(s: O.OrderShard, rec: O.OrderRecord, k: Key)
    requires k in s.insts && s.insts[k].status.Ready? && s.insts[k].shadow.None?
    requires !(rec.OrderChange? && rec.At() == k)
    ensures !O.HandleRecord(s, rec).InstFor(k).status.Ready? <==> rec.At() == k && rec.BookReset?
  {
  }
}
