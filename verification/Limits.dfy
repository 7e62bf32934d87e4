/** Where the Market-by-Price engine promises less than one might think, each with
    the state that shows it and the exact condition. */
module Limits {
  import opened Wrappers
  import opened Book
  import opened InstrumentSpec
  import opened ShardInvariant
  import opened Publisher
  import opened SeriesSafety
  import opened Leftovers
  import ShardSpec
  import C = CoordinatorSpec
  import O = OrderSpec

  // ---- a delta left over from before a reset ----

  function Restamped(d: Delta, mseq: nat): Delta {
    d.(mseq := mseq)
  }

  /** A ready instrument never looks at a delta's mktdata seq: whether the delta is
      from before or after the anchor of the last reset changes nothing that is served
      or waited for. */
  lemma ReadyIgnoresTheMktdataSeq(i: Inst, d: Delta, mseq: nat, held: seq<Delta>)
    requires InstOk(i) && i.status == Ready
    ensures var a, b := Classify(i, d, held).inst, Classify(i, Restamped(d, mseq), held).inst;
            a.status == b.status && a.book == b.book && a.lastSeq == b.lastSeq && a.requiredSeq == b.requiredSeq
  {
    ReadyExpectsNext(i);
    if d.piSeq == i.lastSeq + 1 && !Malformed(d.change) {
      ContiguousOk(i, d, held);
      ContiguousOk(i, Restamped(d, mseq), held);
      DrainIgnores(ApplyOne(i, d), mseq);
    } else if d.piSeq > i.lastSeq + 1 && !Malformed(d.change) {
      var v, w := i.pending[d.piSeq := d], i.pending[d.piSeq := Restamped(d, mseq)];
      assert v.Keys == w.Keys && |v| == |v.Keys| == |w|;
    }
  }

  lemma {:induction false} DrainIgnores(i: Inst, mkt: nat)
    requires Windowed(i) && i.lost == {}
    ensures var a, b := Drain(i), Drain(i.(lastMkt := mkt));
            a.status == b.status && a.book == b.book && a.lastSeq == b.lastSeq && a.requiredSeq == b.requiredSeq
    decreases i.pending.Keys
  {
    var j := i.(lastMkt := mkt);
    if i.lastSeq + 1 in i.pending {
      DrainStepOk(i);
      DrainStepOk(j);
      assert DrainStep(i) == DrainStep(j);
    }
  }

  /** So a leftover that arrives after recovery, at the expected seq of the new series,
      is applied to the new series' book. The instrument is reset at 100, takes the
      empty snapshot there and serves it; 1 of the old series comes in late.
      Leftovers.HarmlessExactly is the condition. */
  lemma LeftoverReachesAReadyBook()
    ensures var h := Series(100, EMPTY, [Wire(LevelUpdate(Ask, 5, Level(1, 1, 0)))]);
            var i := End(Begin(Reset(100), GroupHeader(1, 100, 0, 0, 0)), 1, 100);
            var d := Delta(90, 1, LevelUpdate(Bid, 9, Level(1, 1, 0)));
            var o := Classify(i, d, []);
            && InstOk(i) && i.status == Ready && Sound(h, i) && Fits(h, d) && !Harmless(i, d)
            && o.inst.status == Ready && o.inst.lastSeq == 1 && o.inst.book != BookAt(h, 1)
  {
    var h := Series(100, EMPTY, [Wire(LevelUpdate(Ask, 5, Level(1, 1, 0)))]);
    var i := End(Begin(Reset(100), GroupHeader(1, 100, 0, 0, 0)), 1, 100);
    var d := Delta(90, 1, LevelUpdate(Bid, 9, Level(1, 1, 0)));
    assert PruneLost({}, 0) == {};
    assert i == FRESH.(status := Ready, depthBound := Some(0), lastMkt := 100);
    assert BookAt(h, 0) == EMPTY;
    ContiguousOk(i, d, []);
    var j := ApplyOne(i, d);
    assert Drain(j) == j && DrainRun(j) == [];
    assert !RunSettles([], Bid, 0);
    assert (9 as Price) in j.book.bids;
    assert BookAt(h, 1) == Apply(BookAt(h, 0), h.steps[0].change);
    assert BookAt(h, 1).bids == map[];
  }

  // ---- a commit on a ready instrument ----

  /** A commit frees the reorder window. What it frees could still have drained
      exactly when the window holds the delta right behind the snapshot. */
  lemma FreedWindowCouldDrain(i: Inst, id: nat, anchor: nat)
    requires InstOk(i) && i.status == Ready && Commits(i, id, anchor)
    ensures var last := i.shadow.value.header.last;
            Drain(Commit(i).(pending := i.pending)).lastSeq != last <==> last + 1 in i.pending
  {
    var last := i.shadow.value.header.last;
    var kept := Commit(i).(pending := i.pending);
    assert PruneLost(i.lost, last) == {};
    if last + 1 in i.pending {
      var next := DrainStep(kept);
      assert next.lastSeq == last + 1 && next.lost == {};
      DrainAdvances(next);
    }
  }

  lemma {:induction false} DrainAdvances(i: Inst)
    requires Keyed(i.pending)
    ensures Drain(i).lastSeq >= i.lastSeq
    decreases i.pending.Keys
  {
    if NextExpected(i) in i.pending {
      DrainAdvances(DrainStep(i));
    }
  }

  /** From the start: a snapshot at 5 commits, 7 arrives while 6 is missing and is held,
      and a snapshot at 6 commits. The instrument serves at 6, waits for 7, and no
      longer has it. */
  lemma CommitDropsTheNextDelta()
    ensures var ready := End(Begin(FRESH, GroupHeader(1, 100, 0, 5, 0)), 1, 100);
            var seven := Delta(102, 7, LevelUpdate(Bid, 10, Level(1, 1, 0)));
            var waiting := Classify(ready, seven, []).inst;
            var shadowed := Begin(waiting, GroupHeader(2, 101, 0, 6, 0));
            var after := End(shadowed, 2, 101);
            && ready.status == Ready && waiting.pending == map[7 := seven] && Commits(shadowed, 2, 101)
            && after.status == Ready && NextExpected(after) == 7 && after.pending == map[]
  {
    var ready := End(Begin(FRESH, GroupHeader(1, 100, 0, 5, 0)), 1, 100);
    var seven := Delta(102, 7, LevelUpdate(Bid, 10, Level(1, 1, 0)));
    assert PruneLost({}, 5) == {} && PruneLost({}, 6) == {};
    ReadyExpectsNext(ready);
    assert |map[7 := seven]| == 1;
  }

  // ---- what the two bots do differently ----

  /** A Market-by-Price end closes its channel's route whatever group it names: one
      delayed behind another instrument's begin takes the live group's route, and every
      level left of that group is dropped. The Market-by-Order coordinator keeps the
      route unless the end is the live group's own. */
  lemma LateEndTakesTheRoute(c: C.Coordinator, rec: ShardSpec.Record, level: ShardSpec.Record)
    requires c.shards > 0 && rec.body.SnapshotEnd? && !C.NeedsBarrier(c, rec)
    requires level.body.SnapshotLevel? && level.ch == rec.ch && level.resetCount == rec.resetCount
    ensures C.DispatchSends(C.Dispatched(c, rec), level) == []
  {
  }

  function Arrivals(recs: seq<O.OrderRecord>): seq<O.Input> {
    if recs == [] then [] else [O.Incoming(recs[0])] + Arrivals(recs[1..])
  }

  predicate IsOwnEnd(x: O.Bot, rec: O.OrderRecord) {
    rec.GroupEnd? && rec.ch in x.routes && x.routes[rec.ch].inst == rec.inst && x.routes[rec.ch].id == rec.id
  }

  /** However many ends of a channel come in, the live group's orders still go to the
      same shard exactly when none of the ends was that group's own. */
  lemma {:induction false} OrdersSurviveLateEnds(x: O.Bot, ends: seq<O.OrderRecord>, order: O.OrderRecord)
    requires x.shards != [] && order.GroupOrder? && O.Target(x, order).Some? && order.ch in x.resetCount
    requires forall e :: e in ends ==> e.GroupEnd? && e.ch == order.ch && e.resetCount == x.resetCount[order.ch]
    ensures O.Target(O.DispatchAll(x, Arrivals(ends)), order) == O.Target(x, order) <==>
            forall e :: e in ends ==> !IsOwnEnd(x, e)
    ensures (exists e :: e in ends && IsOwnEnd(x, e)) ==> O.Target(O.DispatchAll(x, Arrivals(ends)), order).None?
    decreases |ends|
  {
    if ends != [] {
      var e, rest := ends[0], ends[1..];
      var y := O.Dispatch(x, O.Incoming(e));
      assert e in ends && forall r :: r in rest ==> r in ends;
      assert ends == [e] + rest;
      assert Arrivals(ends)[0] == O.Incoming(e) && Arrivals(ends)[1..] == Arrivals(rest);
      assert !O.MeetsBarrier(x, e) && y.routes == O.RoutesAfter(x, e) && y.resetCount == x.resetCount;
      if IsOwnEnd(x, e) {
        RouteStaysClosed(y, rest, order);
      } else {
        assert y.routes == x.routes;
        OrdersSurviveLateEnds(y, rest, order);
      }
    }
  }

  lemma {:induction false} RouteStaysClosed(x: O.Bot, ends: seq<O.OrderRecord>, order: O.OrderRecord)
    requires x.shards != [] && order.GroupOrder? && order.ch !in x.routes && order.ch in x.resetCount
    requires forall e :: e in ends ==> e.GroupEnd? && e.ch == order.ch && e.resetCount == x.resetCount[order.ch]
    ensures O.Target(O.DispatchAll(x, Arrivals(ends)), order).None?
    decreases |ends|
  {
    if ends != [] {
      var e := ends[0];
      assert e in ends && forall r :: r in ends[1..] ==> r in ends;
      assert Arrivals(ends)[0] == O.Incoming(e) && Arrivals(ends)[1..] == Arrivals(ends[1..]);
      RouteStaysClosed(O.Dispatch(x, O.Incoming(e)), ends[1..], order);
    }
  }

  /** After a reset a snapshot of no levels, begun and ended, brings a Market-by-Price
      instrument back exactly when it was captured at or after the New Anchor Seq. A
      Market-by-Order instrument comes back on any, one from before the reset included. */
  lemma OnlyOneBotKeepsTheResetFloor(anchor: nat, h: GroupHeader, g: O.OrderHeader)
    requires h.total == 0 && g.total == 0
    ensures End(Begin(Reset(anchor), h), h.id, h.anchor).status == Ready <==> h.anchor >= anchor
    ensures var i := O.EndGroup(O.BeginGroup(O.NEW, g), g.id, g.anchor); i.status == Ready && i.lastMkt == g.anchor
  {
  }
}
