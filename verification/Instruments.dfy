/** The Market-by-Price instrument as the shard holds it: an object whose methods
    update its book, its shadow and its trackers in place. */
module Instruments {
  import opened Wrappers
  import opened Book
  import opened InstrumentSpec
  import opened ShardInvariant

  datatype LevelResult = Added | NoOpenShadow | Mismatch

  datatype EndResult = Committed | NoOpenSnapshot | SnapshotMismatch | Short | StaleInstrumentSeq

  lemma AppliedMore(d: Delta, ds: seq<Delta>)
    ensures Applied([d] + ds) == [AppliedDelta(d)] + Applied(ds)
  {
    assert ([d] + ds)[1..] == ds;
  }

  class Instrument {
    var status: Status
    var bids: map<Price, Level>
    var asks: map<Price, Level>
    var depthBound: Option<nat>
    var lastMkt: nat
    var lastSeq: nat
    var requiredAnchor: Option<nat>
    var requiredSeq: Option<nat>
    var openSnapshot: Option<Shadow>
    var pending: map<nat, Delta>
    var lost: set<nat>

    /** The instrument's value. */
    ghost function State(): Inst
      reads this
    {
      Inst(status, Book(bids, asks), depthBound, lastMkt, lastSeq, requiredAnchor, requiredSeq,
           openSnapshot, pending, lost)
    }

    constructor ()
      ensures State() == FRESH
    {
      status := AwaitingSnapshot;
      bids, asks := map[], map[];
      depthBound := None;
      lastMkt, lastSeq := 0, 0;
      requiredAnchor, requiredSeq := None, None;
      openSnapshot := None;
      pending, lost := map[], {};
    }

    method ApplyLevelUpdate(side: Side, price: Price, level: Level)
      modifies this
      ensures State() == old(State()).(book := Apply(old(State()).book, LevelUpdate(side, price, level)))
      ensures side == Bid ==> asks == old(asks) && bids == if level.qty == 0 then old(bids) - {price} else old(bids)[price := level]
      ensures side == Ask ==> bids == old(bids) && asks == if level.qty == 0 then old(asks) - {price} else old(asks)[price := level]
    {
      if side == Bid {
        if level.qty == 0 { bids := bids - {price}; } else { bids := bids[price := level]; }
      } else {
        if level.qty == 0 { asks := asks - {price}; } else { asks := asks[price := level]; }
      }
    }

    /** Remove from one side of the book what the clear covers, level by level. */
    static method ClearLevels(levels: map<Price, Level>, c: Change, side: Side) returns (rest: map<Price, Level>)
      requires c.BookClear?
      ensures rest == Survivors(levels, c, side)
    {
      rest := levels;
      var todo := levels.Items;
      while todo != {}
        invariant todo <= levels.Items
        invariant forall p :: p in rest <==> p in levels && ((p, levels[p]) in todo || !Clears(c, side, p))
        invariant forall p :: p in rest ==> rest[p] == levels[p]
        decreases todo
      {
        var entry :| entry in todo;
        todo := todo - {entry};
        if Clears(c, side, entry.0) {
          rest := rest - {entry.0};
        }
      }
      assert rest.Keys == Survivors(levels, c, side).Keys;
    }

    method ApplyBookClear(clearSide: ClearSide, scope: Scope, fromPrice: Price) returns (malformed: bool)
      modifies this
      ensures malformed <==> Malformed(BookClear(clearSide, scope, fromPrice))
      ensures malformed <==> clearSide == ClearReserved || scope == ScopeReserved || (scope == FromPrice && clearSide == ClearBoth)
      ensures State() == old(State()).(book := Apply(old(State()).book, BookClear(clearSide, scope, fromPrice)))
    {
      var c := BookClear(clearSide, scope, fromPrice);
      malformed := Malformed(c);
      if malformed {
        return;
      }
      if clearSide == ClearBid || clearSide == ClearBoth {
        bids := ClearLevels(bids, c, Bid);
      } else {
        assert Survivors(bids, c, Bid) == bids;
      }
      if clearSide == ClearAsk || clearSide == ClearBoth {
        asks := ClearLevels(asks, c, Ask);
      } else {
        assert Survivors(asks, c, Ask) == asks;
      }
    }

    method BeginSnapshot(h: GroupHeader)
      modifies this
      ensures State() == old(State()).(shadow := Some(Shadow(h, 0, EMPTY)))
    {
      openSnapshot := Some(Shadow(h, 0, EMPTY));
    }

    method AddSnapshotLevel(id: nat, l: SnapLevel) returns (r: LevelResult)
      modifies this
      ensures State() == InstrumentSpec.Level(old(State()), id, l)
      ensures r == Added <==> State() != old(State())
      ensures r == NoOpenShadow <==> old(openSnapshot).None?
    {
      if openSnapshot.None? {
        return NoOpenShadow;
      }
      var sh := openSnapshot.value;
      if sh.header.id != id {
        return Mismatch;
      }
      openSnapshot := Some(Shadow(sh.header, sh.received + 1, AddLevel(sh.book, l)));
      return Added;
    }

    /** Validate and commit the shadow. On any failure only the shadow goes. */
    method EndSnapshot(id: nat, anchor: nat) returns (r: EndResult)
      modifies this
      ensures State() == End(old(State()), id, anchor)
      ensures r == Committed <==> Commits(old(State()), id, anchor)
      ensures r == Committed <==>
                old(openSnapshot).Some? &&
                var sh := old(openSnapshot).value;
                sh.header.id == id && sh.header.anchor == anchor && sh.received == sh.header.total &&
                (old(requiredSeq).Some? ==> sh.header.last >= old(requiredSeq).value)
      ensures r == Committed ==>
                var sh := old(openSnapshot).value;
                status == Ready && Book(bids, asks) == sh.book && lastMkt == anchor && lastSeq == sh.header.last && pending == map[]
    {
      if openSnapshot.None? {
        return NoOpenSnapshot;
      }
      var sh := openSnapshot.value;
      if sh.header.id != id || sh.header.anchor != anchor {
        openSnapshot := None;
        return SnapshotMismatch;
      }
      if sh.received != sh.header.total {
        openSnapshot := None;
        return Short;
      }
      if requiredSeq.Some? && sh.header.last < requiredSeq.value {
        openSnapshot := None;
        return StaleInstrumentSeq;
      }
      CommitShadow();
      return Committed;
    }

    /** The shadow becomes the live book, all trackers with it. */
    method CommitShadow()
      requires openSnapshot.Some?
      modifies this
      ensures State() == Commit(old(State()))
    {
      var sh := openSnapshot.value;
      bids, asks := sh.book.bids, sh.book.asks;
      lastMkt, lastSeq := sh.header.anchor, sh.header.last;
      PruneLostInstrumentSeq();
      depthBound := Some(sh.header.depth);
      if requiredAnchor.Some? && sh.header.anchor >= requiredAnchor.value {
        requiredAnchor := None;
      }
      requiredSeq, openSnapshot, pending := None, None, map[];
      status := Ready;
    }

    function SnapshotAcceptable(anchor: nat, last: nat): (v: Verdict)
      reads this
      ensures v == Judge(State(), anchor, last)
    {
      if requiredAnchor.Some? && anchor < requiredAnchor.value then StaleAnchor
      else if requiredSeq.Some? && last < requiredSeq.value then StaleSeq
      else if status != Ready then Accepted
      else if last > lastSeq then Accepted else Current
    }

    /** Raise the recovery floor. It never falls here. */
    method RequireSnapshotAtLeast(seqNo: nat)
      modifies this
      ensures State() == old(State()).(requiredSeq := RaiseTo(old(requiredSeq), seqNo))
    {
      if requiredSeq.Some? && requiredSeq.value >= seqNo {
        return;
      }
      requiredSeq := Some(seqNo);
    }

    /** Demotion because the buffer `buf` is being evicted: recovery has to reach the
        highest seq in it, and at least the one after the tracker. */
    method DemoteEvicted(buf: seq<Delta>)
      modifies this
      ensures State() == Evicted(old(State()), buf)
    {
      status := Gap;
      pending := map[];
      var required := HighestSeq(buf, lastSeq + 1);
      RequireSnapshotAtLeast(required);
    }

    // ---- deltas ----

    /** Apply one sequenced record. A malformed one changes nothing. */
    method ApplyRecord(d: Delta) returns (malformed: bool)
      modifies this
      ensures malformed <==> Malformed(d.change)
      ensures State() == if malformed then old(State()) else ApplyOne(old(State()), d)
    {
      match d.change {
        case LevelUpdate(side, price, level) => ApplyLevelUpdate(side, price, level);
        case BookClear(clearSide, scope, fromPrice) =>
          malformed := ApplyBookClear(clearSide, scope, fromPrice);
          if malformed {
            return;
          }
      }
      lastMkt := d.mseq;
      lastSeq := d.piSeq;
      PruneLostInstrumentSeq();
      malformed := false;
    }

    /** Apply the expected delta, then the contiguous run the window holds. What the
        window holds was classified on receipt, so no malformed record is met here. */
    method ApplyAndDrain(d: Delta) returns (evs: seq<Event>)
      requires InstOk(State()) && status == Ready && d.piSeq == lastSeq + 1 && !Malformed(d.change)
      modifies this
      ensures State() == Drain(ApplyOne(old(State()), d))
      ensures evs == Applied([d] + DrainRun(ApplyOne(old(State()), d)))
    {
      AppliedWindowed(State(), d);
      var malformed := ApplyRecord(d);
      if malformed {
        assert false;
      }
      evs := [AppliedDelta(d)];
      ghost var start := State();
      AppliedMore(d, DrainRun(start));
      while true
        invariant Windowed(State()) && lost == {}
        invariant Drain(State()) == Drain(start)
        invariant evs + Applied(DrainRun(State())) == Applied([d] + DrainRun(start))
        decreases pending.Keys
      {
        var next := NextExpectedInstrumentSeq();
        if next !in pending {
          assert evs + [] == evs;
          break;
        }
        ghost var i := State();
        DrainStepOk(i);
        var pr := pending[next];
        pending := pending - {next};
        malformed := ApplyRecord(pr);
        if malformed {
          assert false;
        }
        assert State() == DrainStep(i);
        AppliedMore(pr, DrainRun(State()));
        evs := evs + [AppliedDelta(pr)];
      }
    }

    /** Demotion by a malformed record: its seq is lost and recovery has to reach it.
        The window is handed over, in whatever order the map is walked. */
    method DemoteMalformed(seqNo: nat) returns (held: seq<Delta>)
      requires Keyed(pending)
      modifies this
      ensures State() == InstrumentSpec.DemoteMalformed(old(State()), seqNo)
      ensures Enumerates(held, old(pending))
    {
      status := Gap;
      MarkInstrumentSeqLost(seqNo);
      RequireSnapshotAtLeast(seqNo);
      held := Walk(pending);
      pending := map[];
    }

    static method Walk(window: map<nat, Delta>) returns (held: seq<Delta>)
      requires Keyed(window)
      ensures Enumerates(held, window)
    {
      held := [];
      var todo := window.Keys;
      while todo != {}
        invariant todo <= window.Keys
        invariant forall j :: 0 <= j < |held| ==>
                    held[j].piSeq in window && held[j].piSeq !in todo && window[held[j].piSeq] == held[j]
        invariant forall s :: s in window && s !in todo ==> window[s] in held
        invariant forall j, k :: 0 <= j < k < |held| ==> held[j].piSeq != held[k].piSeq
        decreases todo
      {
        var s :| s in todo;
        todo := todo - {s};
        held := held + [window[s]];
      }
    }

    /** The window overflowed at `seqNo`: a gap, with a floor over everything the
        branch is about to lose. */
    method DeclareGap(seqNo: nat)
      requires seqNo > 0
      modifies this
      ensures State() == InstrumentSpec.DeclareGap(old(State()), old(pending), seqNo)
    {
      status := Gap;
      var required := seqNo - 1;
      var todo := pending.Keys;
      while todo != {}
        invariant todo <= pending.Keys && required >= seqNo - 1
        invariant required == seqNo - 1 || required in pending.Keys - {seqNo}
        invariant forall s :: s in pending && s !in todo && s != seqNo ==> s <= required
        decreases todo
      {
        var s :| s in todo;
        todo := todo - {s};
        if s != seqNo && s > required {
          required := s;
        }
      }
      HighestIs(seqNo - 1, pending.Keys - {seqNo}, required);
      pending := map[];
      RequireSnapshotAtLeast(required);
    }

    static method HighestSeq(buf: seq<Delta>, least: nat) returns (required: nat)
      ensures required == Highest(least, Seqs(buf))
    {
      required := least;
      for j := 0 to |buf|
        invariant required >= least && (required == least || exists i :: 0 <= i < j && buf[i].piSeq == required)
        invariant forall i :: 0 <= i < j ==> buf[i].piSeq <= required
      {
        if buf[j].piSeq > required {
          required := buf[j].piSeq;
        }
      }
      HighestIs(least, Seqs(buf), required);
    }

    /** Compare the best bid with the best ask, found by a walk over each side. */
    method Crossed() returns (crossed: bool)
      ensures crossed <==> State().book.Crossed()
      ensures crossed <==> exists p, q :: p in bids && q in asks && p > q
    {
      if bids == map[] || asks == map[] {
        return false;
      }
      var bestBid := Best(bids, true);
      var bestAsk := Best(asks, false);
      return bestBid > bestAsk;
    }

    static method Best(levels: map<Price, Level>, highest: bool) returns (best: Price)
      requires levels != map[]
      ensures best in levels
      ensures forall p :: p in levels ==> if highest then p <= best else p >= best
    {
      var first :| first in levels.Items;
      best := first.0;
      var todo := levels.Items - {first};
      while todo != {}
        invariant best in levels && todo <= levels.Items
        invariant forall p :: p in levels && (p, levels[p]) !in todo ==> if highest then p <= best else p >= best
        decreases todo
      {
        var entry :| entry in todo;
        todo := todo - {entry};
        if (highest && entry.0 > best) || (!highest && entry.0 < best) {
          best := entry.0;
        }
      }
    }

    method Reset(anchor: nat)
      modifies this
      ensures State() == InstrumentSpec.Reset(anchor)
    {
      bids, asks := map[], map[];
      openSnapshot := None;
      pending := map[];
      status := AwaitingSnapshot;
      lastMkt, lastSeq := 0, 0;
      lost := {};
      depthBound := None;
      requiredAnchor := Some(anchor);
      requiredSeq := None;
    }

    /** One past the last applied seq, stepping over what is known to be lost. */
    method NextExpectedInstrumentSeq() returns (expected: nat)
      ensures expected == NextExpected(State())
    {
      expected := lastSeq + 1;
      ghost var left := lost;
      while expected in lost
        invariant left <= lost && forall x :: x in lost && x >= expected ==> x in left
        invariant forall x :: x in left ==> x >= expected || x <= lastSeq
        invariant SkipLost(lastSeq + 1, lost) == SkipLost(expected, left)
        decreases left
      {
        left := left - {expected};
        expected := expected + 1;
      }
    }

    method MarkInstrumentSeqLost(seqNo: nat)
      modifies this
      ensures State() == old(State()).(lost := old(lost) + {seqNo})
    {
      lost := lost + {seqNo};
    }

    /** Drop the lost entries the tracker has passed. */
    method PruneLostInstrumentSeq()
      modifies this`lost
      ensures lost == PruneLost(old(lost), lastSeq)
    {
      var todo := lost;
      while todo != {}
        invariant todo <= old(lost)
        invariant forall x :: x in lost <==> x in old(lost) && (x in todo || x > lastSeq)
        decreases todo
      {
        var x :| x in todo;
        todo := todo - {x};
        if x <= lastSeq {
          lost := lost - {x};
        }
      }
    }
  }
}
