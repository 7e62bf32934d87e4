/** The Market-by-Order instrument, shard and coordinator as their goroutines run
    them: updated in place, method by method what OrderSpec states. */
module Orders {
  import opened Wrappers
  import InstrumentSpec
  import ShardSpec
  import opened ChannelMaps
  import opened OrderBooks
  import opened OrderSpec

  type Key = ShardSpec.Key

  class OrderInstrument {
    var status: InstrumentSpec.Status
    var bids: map<nat, Order>
    var asks: map<nat, Order>
    var lastMkt: nat
    var lastSeq: nat
    var openSnapshot: Option<OrderShadow>
    var pending: map<nat, OrderDelta>

    /** The instrument's value. */
    ghost function State(): OrderInst
      reads this
    {
      OrderInst(status, Orders(bids, asks), lastMkt, lastSeq, openSnapshot, pending)
    }

    constructor ()
      ensures State() == NEW
    {
      status := InstrumentSpec.AwaitingSnapshot;
      bids, asks := map[], map[];
      lastMkt, lastSeq := 0, 0;
      openSnapshot := None;
      pending := map[];
    }

    method ApplyOrderAdd(id: nat, o: Order)
      modifies this
      ensures State() == old(State()).(book := Apply(old(State()).book, Add(id, o)))
    {
      if o.ask {
        asks := asks[id := o];
      } else {
        bids := bids[id := o];
      }
    }

    method ApplyOrderCancel(id: nat)
      modifies this
      ensures State() == old(State()).(book := Apply(old(State()).book, Cancel(id)))
    {
      bids := bids - {id};
      asks := asks - {id};
    }

    /** One side after an execution against a resting order: decremented, or gone. */
    static method ApplyExecToOrder(side: map<nat, Order>, id: nat, fullFill: bool, qty: nat) returns (rest: map<nat, Order>)
      requires id in side
      ensures rest == Fill(side, id, fullFill, qty)
    {
      if fullFill {
        return side - {id};
      }
      var o := side[id];
      if qty >= o.qty {
        o := o.(qty := 0);
      } else {
        o := o.(qty := o.qty - qty);
      }
      rest := if o.qty == 0 then side - {id} else side[id := o];
    }

    method ApplyOrderExecute(id: nat, fullFill: bool, qty: nat)
      modifies this
      ensures State() == old(State()).(book := Apply(old(State()).book, Execute(id, fullFill, qty)))
    {
      if id in bids {
        bids := ApplyExecToOrder(bids, id, fullFill, qty);
        return;
      }
      if id in asks {
        asks := ApplyExecToOrder(asks, id, fullFill, qty);
      }
    }

    method ApplyRecord(d: OrderDelta)
      modifies this
      ensures State() == ApplyOne(old(State()), d)
    {
      match d.op {
        case Add(id, o) => ApplyOrderAdd(id, o);
        case Cancel(id) => ApplyOrderCancel(id);
        case Execute(id, fullFill, qty) => ApplyOrderExecute(id, fullFill, qty);
      }
      lastMkt, lastSeq := d.mseq, d.piSeq;
    }

    method ApplyAndDrain(d: OrderDelta) returns (applied: seq<OrderDelta>)
      modifies this
      ensures State() == Drain(ApplyOne(old(State()), d))
      ensures applied == [d] + DrainRun(ApplyOne(old(State()), d))
    {
      ApplyRecord(d);
      applied := [d];
      ghost var start := State();
      while lastSeq + 1 in pending
        invariant Drain(State()) == Drain(start)
        invariant applied + DrainRun(State()) == [d] + DrainRun(start)
        decreases pending.Keys
      {
        ghost var i := State();
        var next := lastSeq + 1;
        var pr := pending[next];
        pending := pending - {next};
        ApplyRecord(pr);
        assert State() == DrainStep(i);
        assert applied + ([pr] + DrainRun(State())) == applied + [pr] + DrainRun(State());
        applied := applied + [pr];
      }
      assert applied + [] == applied;
    }

    /** A delta whatever the status: old, early, or next. `demoted` says that the window
        overflowed and the delta is to be buffered. */
    method DeliverDelta(d: OrderDelta) returns (applied: seq<OrderDelta>, demoted: bool)
      modifies this
      ensures Delivery(State(), applied, demoted) == Deliver(old(State()), d)
      ensures demoted <==>
                d.piSeq > old(lastSeq) + 1 && (d.piSeq > old(lastSeq) + 17 || |old(pending)[d.piSeq := d]| > 16)
      ensures demoted ==> status == InstrumentSpec.Gap && pending == map[]
      ensures d.piSeq > old(lastSeq) + 1 && !demoted ==> pending == old(pending)[d.piSeq := d]
      ensures d.piSeq != old(lastSeq) + 1 ==> applied == [] && bids == old(bids) && asks == old(asks) && lastSeq == old(lastSeq)
    {
      var expected := lastSeq + 1;
      if d.piSeq < expected {
        return [], false;
      }
      if d.piSeq > expected {
        pending := pending[d.piSeq := d];
        if |pending| <= InstrumentSpec.REORDER_WINDOW && d.piSeq - expected <= InstrumentSpec.REORDER_WINDOW {
          return [], false;
        }
        status := InstrumentSpec.Gap;
        pending := map[];
        return [], true;
      }
      applied := ApplyAndDrain(d);
      demoted := false;
    }

    method BeginSnapshot(h: OrderHeader)
      modifies this
      ensures State() == old(State()).(shadow := Some(OrderShadow(h, 0, NO_ORDERS)))
    {
      openSnapshot := Some(OrderShadow(h, 0, NO_ORDERS));
    }

    method AddSnapshotOrder(id: nat, orderId: nat, o: Order) returns (added: bool)
      modifies this
      ensures State() == AddOrder(old(State()), id, orderId, o)
      ensures added <==> State() != old(State())
    {
      if openSnapshot.None? || openSnapshot.value.header.id != id {
        return false;
      }
      var sh := openSnapshot.value;
      openSnapshot := Some(OrderShadow(sh.header, sh.received + 1, Place(sh.book, orderId, o)));
      added := true;
    }

    /** Commit the shadow, or drop it and nothing else. */
    method EndSnapshot(id: nat, anchor: nat) returns (committed: bool)
      requires openSnapshot.Some? && id >= openSnapshot.value.header.id
      modifies this
      ensures State() == EndGroup(old(State()), id, anchor)
      ensures committed <==>
                var sh := old(openSnapshot).value;
                sh.header.id == id && sh.header.anchor == anchor && sh.received == sh.header.total
      ensures openSnapshot.None? && pending == old(pending)
      ensures committed ==>
                var sh := old(openSnapshot).value;
                status == InstrumentSpec.Ready && Orders(bids, asks) == sh.book && lastMkt == anchor && lastSeq == sh.header.last
      ensures !committed ==>
                status == old(status) && bids == old(bids) && asks == old(asks) && lastMkt == old(lastMkt) && lastSeq == old(lastSeq)
    {
      var sh := openSnapshot.value;
      openSnapshot := None;
      if sh.header.id != id || sh.header.anchor != anchor {
        return false;
      }
      if sh.received != sh.header.total {
        return false;
      }
      bids, asks := sh.book.bids, sh.book.asks;
      status := InstrumentSpec.Ready;
      lastMkt, lastSeq := sh.header.anchor, sh.header.last;
      committed := true;
    }

    method Reset()
      modifies this
      ensures State() == NEW
    {
      bids, asks := map[], map[];
      openSnapshot := None;
      pending := map[];
      status := InstrumentSpec.AwaitingSnapshot;
      lastMkt, lastSeq := 0, 0;
    }
  }

  /** Where a delta goes in a sorted buffer. */
  predicate SortedBySeq(buf: seq<OrderDelta>) {
    forall j, k :: 0 <= j < k < |buf| ==> buf[j].mseq <= buf[k].mseq
  }

  lemma {:induction false} InsertAt(buf: seq<OrderDelta>, d: OrderDelta, p: nat)
    requires p <= |buf| && (forall j :: 0 <= j < p ==> buf[j].mseq <= d.mseq) && forall j :: p <= j < |buf| ==> buf[j].mseq > d.mseq
    ensures InsertSorted(buf, d) == buf[..p] + [d] + buf[p..]
  {
    if p < |buf| {
      var init := buf[..|buf| - 1];
      InsertAt(init, d, p);
      assert init[..p] == buf[..p];
      assert buf[p..] == init[p..] + [buf[|buf| - 1]];
    } else {
      assert buf[..p] == buf && buf[p..] == [];
    }
  }

  lemma InsertKeepsOrder(buf: seq<OrderDelta>, d: OrderDelta, p: nat)
    requires SortedBySeq(buf)
    requires p <= |buf| && (forall j :: 0 <= j < p ==> buf[j].mseq <= d.mseq) && forall j :: p <= j < |buf| ==> buf[j].mseq > d.mseq
    ensures SortedBySeq(buf[..p] + [d] + buf[p..])
  {
  }

  lemma {:induction false} LaterSorted(buf: seq<OrderDelta>, anchor: nat)
    requires SortedBySeq(buf)
    ensures SortedBySeq(Later(buf, anchor)) && forall x :: x in Later(buf, anchor) ==> x in buf
  {
    if buf != [] {
      var rest := Later(buf[1..], anchor);
      LaterSorted(buf[1..], anchor);
      assert forall x :: x in buf[1..] ==> x in buf;
      assert forall x :: x in rest ==> buf[0].mseq <= x.mseq;
      if buf[0].mseq > anchor {
        assert Later(buf, anchor) == [buf[0]] + rest;
        FirstSorted(buf[0], rest);
      }
    }
  }

  lemma FirstSorted(d: OrderDelta, rest: seq<OrderDelta>)
    requires SortedBySeq(rest) && forall x :: x in rest ==> d.mseq <= x.mseq
    ensures SortedBySeq([d] + rest)
  {
  }

  /** A delta's effect, map by map. */
  lemma ChangedParts(s: OrderShard, k: Key, d: OrderDelta)
    ensures var x := Changed(s.ShareOf(k), d);
            s.With(k, x) ==
            if k !in s.insts || !s.insts[k].status.Ready? then s.(bufs := s.bufs[k := Buffered(s.Buf(k), d)])
            else
              var o := Deliver(s.insts[k], d);
              s.(insts := s.insts[k := o.inst], bufs := if o.demoted then s.bufs[k := Buffered(s.Buf(k), d)] else s.bufs)
  {
    assert s.With(k, s.ShareOf(k)) == s;
  }

  lemma BegunParts(s: OrderShard, k: Key, h: OrderHeader)
    ensures OpenGroup(s.With(k, Begun(s.ShareOf(k), h)), k, h) ==
            s.(insts := s.insts[k := BeginGroup(s.InstFor(k), h)],
               open := s.open[k.ch := OrderGroup(k, h.id)], ctx := s.ctx[k := h])
  {
    assert Set(s.bufs, k, Get(s.bufs, k)) == s.bufs;
  }

  lemma EndedNothing(s: OrderShard, k: Key, id: nat, anchor: nat)
    requires k in s.insts ==> s.insts[k].shadow.None? || id < s.insts[k].shadow.value.header.id
    ensures s.With(k, Ended(s.ShareOf(k), id, anchor)) == s
  {
  }

  lemma EndedDrop(s: OrderShard, k: Key, id: nat, anchor: nat)
    requires k in s.insts && !OrderSpec.Commits(s.insts[k], id, anchor)
    ensures s.With(k, Ended(s.ShareOf(k), id, anchor)) == s.(insts := s.insts[k := EndGroup(s.insts[k], id, anchor)])
  {
    assert Set(s.bufs, k, Get(s.bufs, k)) == s.bufs;
  }

  lemma EndedCommit(s: OrderShard, k: Key, id: nat, anchor: nat)
    requires k in s.insts && OrderSpec.Commits(s.insts[k], id, anchor)
    ensures var i := EndGroup(s.insts[k], id, anchor);
            s.With(k, Ended(s.ShareOf(k), id, anchor)) ==
            s.(insts := s.insts[k := i][k := OrderSpec.Replay(i, s.ShareOf(k).Deltas()).inst], bufs := s.bufs - {k})
  {
    UpdateTwice(s.insts, k, EndGroup(s.insts[k], id, anchor), OrderSpec.Replay(Commit(s.insts[k]), s.ShareOf(k).Deltas()).inst);
  }

  /** A wipe, map by map. */
  lemma WipedParts(s: OrderShard, t: OrderShard, ch: nat)
    requires t.insts == s.insts - (set k | k in s.insts && k.ch == ch)
    requires t.refdata == (set k | k in s.refdata && k.ch != ch)
    requires t.bufs == s.bufs - (set k | k in s.bufs && k.ch == ch)
    requires t.ctx == s.ctx - (set k | k in s.ctx && k.ch == ch)
    requires t.open == s.open - {ch}
    ensures t == WipeChannel(s, ch)
  {
    var u := WipeChannel(s, ch);
    assert u.insts == t.insts;
    assert u.refdata == t.refdata;
    assert u.bufs == t.bufs;
    assert u.ctx == t.ctx;
  }

  class LiveOrderShard {
    var instruments: map<Key, OrderInstrument>
    var refdata: set<Key>
    var deltaBuf: map<Key, seq<OrderDelta>>
    var snapCtx: map<Key, OrderHeader>
    var open: map<nat, OrderGroup>

    ghost function Insts(): map<Key, OrderInst>
      reads this`instruments, instruments.Values
    {
      map k | k in instruments :: instruments[k].State()
    }

    /** The shard's value. */
    ghost function State(): OrderShard
      reads this, instruments.Values
    {
      OrderShard(Insts(), refdata, deltaBuf, snapCtx, open)
    }

    /** Every key has an instrument of its own, and buffers are in mktdata order. */
    ghost predicate Valid()
      reads this
    {
      && (forall j, k :: j in instruments && k in instruments && j != k ==> instruments[j] != instruments[k])
      && BuffersSorted()
    }

    ghost predicate BuffersSorted()
      reads this`deltaBuf
    {
      forall k :: k in deltaBuf ==> SortedBySeq(deltaBuf[k])
    }

    /** Every instrument is one it had or a new one. */
    twostate predicate Within()
      reads this
    {
      forall k :: k in instruments ==> instruments[k] in old(instruments).Values || fresh(instruments[k])
    }

    twostate lemma OneChanged(k: Key)
      requires k in instruments && instruments == old(instruments)
      requires forall j :: j in instruments && j != k ==> instruments[j].State() == old(instruments[j].State())
      ensures Insts() == old(Insts())[k := instruments[k].State()]
    {
    }

    twostate lemma Restricted(ks: set<Key>)
      requires instruments == old(instruments) - ks
      requires forall k :: k in instruments ==> instruments[k].State() == old(instruments[k].State())
      ensures Insts() == old(Insts()) - ks
    {
    }

    constructor ()
      ensures Valid() && State() == NO_SHARD
    {
      instruments, deltaBuf, snapCtx, open := map[], map[], map[], map[];
      refdata := {};
      new;
      assert Insts() == map[];
    }

    // ---- deltas ----

    /** Behind every entry not later. */
    static method InsertInto(buf: seq<OrderDelta>, d: OrderDelta) returns (r: seq<OrderDelta>)
      requires SortedBySeq(buf)
      ensures r == InsertSorted(buf, d) && SortedBySeq(r)
    {
      var p := |buf|;
      while p > 0 && buf[p - 1].mseq > d.mseq
        invariant 0 <= p <= |buf| && forall j :: p <= j < |buf| ==> buf[j].mseq > d.mseq
      {
        p := p - 1;
      }
      InsertAt(buf, d, p);
      InsertKeepsOrder(buf, d, p);
      r := buf[..p] + [d] + buf[p..];
    }

    /** A full buffer drops its oldest. */
    method BufferDelta(k: Key, d: OrderDelta)
      requires BuffersSorted()
      modifies this`deltaBuf
      ensures BuffersSorted()
      ensures deltaBuf == old(deltaBuf)[k := Buffered(if k in old(deltaBuf) then old(deltaBuf)[k] else [], d)]
    {
      var buf := if k in deltaBuf then deltaBuf[k] else [];
      if |buf| >= MAX_DELTAS {
        buf := buf[1..];
      }
      buf := InsertInto(buf, d);
      deltaBuf := deltaBuf[k := buf];
    }

    method ApplyDelta(k: Key, d: OrderDelta)
      requires Valid()
      modifies this`deltaBuf, instruments.Values
      ensures Valid() && State() == old(State()).With(k, Changed(old(State()).ShareOf(k), d))
    {
      ghost var s := State();
      if k !in instruments || instruments[k].status != InstrumentSpec.Ready {
        BufferDelta(k, d);
        ChangedParts(s, k, d);
      } else {
        ApplyDeltaToReady(k, d);
        ChangedParts(s, k, d);
      }
    }

    method ApplyDeltaToReady(k: Key, d: OrderDelta)
      requires Valid() && k in instruments && instruments[k].status == InstrumentSpec.Ready
      modifies this`deltaBuf, instruments[k]
      ensures Valid()
      ensures var o := Deliver(old(instruments[k].State()), d);
              && Insts() == old(Insts())[k := o.inst]
              && deltaBuf == if o.demoted then old(deltaBuf)[k := Buffered(old(State()).ShareOf(k).Deltas(), d)] else old(deltaBuf)
    {
      var demoted := DeliverTo(k, d);
      if demoted {
        BufferDelta(k, d);
      }
    }

    method DeliverTo(k: Key, d: OrderDelta) returns (demoted: bool)
      requires Valid() && k in instruments
      modifies instruments[k]
      ensures Valid()
      ensures var o := Deliver(old(instruments[k].State()), d);
              Insts() == old(Insts())[k := o.inst] && demoted == o.demoted
    {
      var applied;
      applied, demoted := instruments[k].DeliverDelta(d);
      OneChanged(k);
    }

    // ---- snapshots ----

    method InstrumentFor(k: Key) returns (inst: OrderInstrument)
      requires Valid()
      modifies this`instruments
      ensures Valid() && Within() && k in instruments && instruments[k] == inst
      ensures Insts() == old(Insts())[k := old(State()).InstFor(k)] && inst.State() == old(State()).InstFor(k)
    {
      if k in instruments {
        inst := instruments[k];
        assert Insts() == old(Insts());
      } else {
        inst := new OrderInstrument();
        instruments := instruments[k := inst];
        assert Insts() == old(Insts())[k := NEW];
      }
    }

    method BeginFor(k: Key, h: OrderHeader)
      requires Valid()
      modifies this`instruments, instruments.Values
      ensures Valid() && Within() && Insts() == old(Insts())[k := BeginGroup(old(State()).InstFor(k), h)]
    {
      var inst := InstrumentFor(k);
      label L:
      ghost var i := inst.State();
      if inst.status != InstrumentSpec.Ready {
        inst.BeginSnapshot(h);
      }
      ghost var j := inst.State();
      assert Insts() == old@L(Insts())[k := j] by { OneChanged@L(k); }
      UpdateTwice(old(Insts()), k, i, j);
    }

    method ApplySnapshotBegin(k: Key, h: OrderHeader)
      requires Valid()
      modifies this, instruments.Values
      ensures Valid() && Within()
      ensures State() == OpenGroup(old(State()).With(k, Begun(old(State()).ShareOf(k), h)), k, h)
    {
      ghost var s := State();
      BeginFor(k, h);
      Open(k, h);
      BegunParts(s, k, h);
    }

    method Open(k: Key, h: OrderHeader)
      modifies this`open, this`snapCtx
      ensures open == old(open)[k.ch := OrderGroup(k, h.id)] && snapCtx == old(snapCtx)[k := h]
    {
      open := open[k.ch := OrderGroup(k, h.id)];
      snapCtx := snapCtx[k := h];
    }

    /** The order goes to the instrument the open group names, or nowhere. */
    method ApplySnapshotOrder(ch: nat, id: nat, orderId: nat, o: Order)
      requires Valid()
      modifies instruments.Values
      ensures Valid() && State() == HandleOrder(old(State()), ch, id, orderId, o)
    {
      if ch !in open || open[ch].id != id {
        return;
      }
      var k := open[ch].inst;
      if k !in instruments || instruments[k].openSnapshot.None? {
        return;
      }
      var added := instruments[k].AddSnapshotOrder(id, orderId, o);
      OneChanged(k);
    }

    method Close(k: Key, id: nat)
      modifies this`open, this`snapCtx
      ensures open == (if k.ch in old(open) && old(open)[k.ch] == OrderGroup(k, id) then old(open) - {k.ch} else old(open))
      ensures snapCtx == if k in old(snapCtx) && old(snapCtx)[k].id == id then old(snapCtx) - {k} else old(snapCtx)
    {
      if k.ch in open && open[k.ch].inst == k && open[k.ch].id == id {
        open := open - {k.ch};
      }
      if k in snapCtx && snapCtx[k].id == id {
        snapCtx := snapCtx - {k};
      }
    }

    method ApplySnapshotEnd(k: Key, id: nat, anchor: nat)
      requires Valid()
      modifies this, instruments.Values
      ensures Valid() && instruments == old(instruments)
      ensures State() == CloseGroup(old(State()).With(k, Ended(old(State()).ShareOf(k), id, anchor)), k, id)
    {
      EndFor(k, id, anchor);
      Close(k, id);
    }

    method EndFor(k: Key, id: nat, anchor: nat)
      requires Valid()
      modifies this`deltaBuf, instruments.Values
      ensures Valid() && State() == old(State()).With(k, Ended(old(State()).ShareOf(k), id, anchor))
    {
      ghost var s := State();
      if k !in instruments || instruments[k].openSnapshot.None? || id < instruments[k].openSnapshot.value.header.id {
        EndedNothing(s, k, id, anchor);
        return;
      }
      var committed := EndShadow(k, id, anchor);
      if committed {
        EndedCommit(s, k, id, anchor);
        ReplayBuffer(k);
      } else {
        EndedDrop(s, k, id, anchor);
      }
    }

    method EndShadow(k: Key, id: nat, anchor: nat) returns (committed: bool)
      requires Valid() && k in instruments && instruments[k].openSnapshot.Some?
      requires id >= instruments[k].openSnapshot.value.header.id
      modifies instruments[k]
      ensures Valid() && Insts() == old(Insts())[k := EndGroup(old(instruments[k].State()), id, anchor)]
      ensures committed <==> Commits(old(instruments[k].State()), id, anchor)
    {
      committed := instruments[k].EndSnapshot(id, anchor);
      OneChanged(k);
    }

    /** Apply what the anchor does not cover. The buffer goes, and with it all a demotion
        on the way would have put back. */
    method ReplayBuffer(k: Key)
      requires Valid() && k in instruments
      modifies this`deltaBuf, instruments[k]
      ensures Valid() && deltaBuf == old(deltaBuf) - {k}
      ensures Insts() == old(Insts())[k := Replay(old(instruments[k].State()), old(State()).ShareOf(k).Deltas()).inst]
    {
      var buf := Take(k);
      ReplayAll(instruments[k], buf);
      OneChanged(k);
    }

    method Take(k: Key) returns (buf: seq<OrderDelta>)
      requires BuffersSorted()
      modifies this`deltaBuf
      ensures BuffersSorted() && deltaBuf == old(deltaBuf) - {k} && buf == old(State()).ShareOf(k).Deltas()
    {
      buf := if k in deltaBuf then deltaBuf[k] else [];
      deltaBuf := deltaBuf - {k};
    }

    static method ReplayAll(inst: OrderInstrument, buf: seq<OrderDelta>)
      modifies inst
      ensures inst.State() == Replay(old(inst.State()), buf).inst
    {
      for j := 0 to |buf|
        invariant Replay(inst.State(), buf[j..]).inst == Replay(old(inst.State()), buf).inst
      {
        assert buf[j..][0] == buf[j] && buf[j..][1..] == buf[j + 1..];
        if buf[j].mseq > inst.lastMkt {
          var applied, demoted := inst.DeliverDelta(buf[j]);
        }
      }
    }

    // ---- resets ----

    static method FilterLater(buf: seq<OrderDelta>, anchor: nat) returns (kept: seq<OrderDelta>)
      ensures kept == Later(buf, anchor)
    {
      kept := [];
      for j := 0 to |buf|
        invariant kept + Later(buf[j..], anchor) == Later(buf, anchor)
      {
        ghost var rest := Later(buf[j + 1..], anchor);
        assert buf[j..][1..] == buf[j + 1..];
        if buf[j].mseq > anchor {
          assert kept + ([buf[j]] + rest) == kept + [buf[j]] + rest;
          kept := kept + [buf[j]];
        }
      }
      assert kept + [] == kept;
    }

    method ApplyInstrumentReset(k: Key, anchor: nat)
      requires Valid()
      modifies this`deltaBuf, instruments.Values
      ensures Valid() && State() == old(State()).With(k, Cleared(old(State()).ShareOf(k), anchor))
    {
      if k !in instruments {
        assert old(State()).With(k, old(State()).ShareOf(k)) == old(State());
        return;
      }
      instruments[k].Reset();
      OneChanged(k);
      FilterBuffer(k, anchor);
    }

    method FilterBuffer(k: Key, anchor: nat)
      requires BuffersSorted()
      modifies this`deltaBuf
      ensures BuffersSorted()
      ensures deltaBuf == old(deltaBuf)[k := Later(if k in old(deltaBuf) then old(deltaBuf)[k] else [], anchor)]
    {
      var buf := if k in deltaBuf then deltaBuf[k] else [];
      LaterSorted(buf, anchor);
      var kept := FilterLater(buf, anchor);
      deltaBuf := deltaBuf[k := kept];
    }

    method ApplyInstrumentDefinition(k: Key)
      requires Valid()
      modifies this`instruments, this`refdata
      ensures Valid() && Within()
      ensures State() == old(State()).(insts := old(State()).insts[k := old(State()).InstFor(k)], refdata := old(refdata) + {k})
    {
      var inst := InstrumentFor(k);
      refdata := refdata + {k};
    }

    /** A socket drop: every open group goes, with its shadow and context; live books
        stay. */
    method ClearShadows()
      requires Valid()
      modifies this`open, this`snapCtx, instruments.Values
      ensures Valid() && State() == DropShadows(old(State()))
    {
      DropOpenShadows();
      open, snapCtx := map[], map[];
    }

    method DropOpenShadows()
      requires Valid()
      modifies instruments.Values
      ensures Valid() && Insts() == DropShadows(old(State())).insts
    {
      var todo := instruments.Keys;
      while todo != {}
        invariant todo <= instruments.Keys
        invariant forall k :: k in instruments ==>
          instruments[k].State() == if k in todo then old(instruments[k].State())
                                    else old(instruments[k].State()).(shadow := None)
        decreases todo
      {
        var k :| k in todo;
        todo := todo - {k};
        instruments[k].openSnapshot := None;
      }
      assert Insts() == DropShadows(old(State())).insts;
    }

    // ---- the inbox ----

    method Handle(rec: OrderRecord)
      requires Valid()
      modifies this, instruments.Values
      ensures Valid() && Within() && State() == HandleRecord(old(State()), rec)
    {
      var k := rec.At();
      match rec {
        case OrderChange(_, _, _, d) => ApplyDelta(k, d);
        case GroupBegin(_, _, _, h) => ApplySnapshotBegin(k, h);
        case GroupOrder(ch, _, _, id, orderId, o) => ApplySnapshotOrder(ch, id, orderId, o);
        case GroupEnd(_, _, _, id, anchor) => ApplySnapshotEnd(k, id, anchor);
        case BookReset(_, _, _, anchor) => ApplyInstrumentReset(k, anchor);
        case Defined(_, _, _) => ApplyInstrumentDefinition(k);
        case Channel(_, _, _) =>
      }
    }

    method ForgetInstruments(ch: nat)
      requires Valid()
      modifies this`instruments
      ensures Valid() && Within() && Insts() == old(Insts()) - set k | k in old(Insts()) && k.ch == ch
    {
      var left := OtherChannels(instruments, ch);
      Keep(left, set k | k in instruments && k.ch == ch);
    }

    method Keep(left: map<Key, OrderInstrument>, ghost ks: set<Key>)
      requires Valid() && left == instruments - ks
      modifies this`instruments
      ensures Valid() && Within() && Insts() == old(Insts()) - ks
    {
      instruments := left;
      Restricted(ks);
    }

    method ForgetChannel(ch: nat)
      requires BuffersSorted()
      modifies this`refdata, this`deltaBuf, this`snapCtx, this`open
      ensures BuffersSorted()
      ensures refdata == (set k | k in old(refdata) && k.ch != ch)
      ensures deltaBuf == old(deltaBuf) - (set k | k in old(deltaBuf) && k.ch == ch)
      ensures snapCtx == old(snapCtx) - (set k | k in old(snapCtx) && k.ch == ch)
      ensures open == old(open) - {ch}
    {
      refdata := OtherChannelKeys(refdata, ch);
      deltaBuf := OtherChannels(deltaBuf, ch);
      snapCtx := OtherChannels(snapCtx, ch);
      open := open - {ch};
    }

    method ResetChannel(ch: nat)
      requires Valid()
      modifies this
      ensures Valid() && Within() && State() == WipeChannel(old(State()), ch)
    {
      ghost var s := State();
      ForgetInstruments(ch);
      ForgetChannel(ch);
      WipedParts(s, State(), ch);
    }

    /** One message off the inbox. */
    method Receive(m: Message)
      requires Valid()
      modifies this, instruments.Values
      ensures Valid() && Within() && State() == Step(old(State()), m)
    {
      match m {
        case Rec(rec) => Handle(rec);
        case Wipe(ch) => ResetChannel(ch);
        case Drop => ClearShadows();
      }
    }

    /** A shard's life: the inbox, message by message. */
    method Run(inbox: seq<Message>)
      requires Valid() && State() == NO_SHARD
      modifies this, instruments.Values
      ensures Valid() && State() == OrderBooks.After(inbox)
    {
      for n := 0 to |inbox|
        invariant Valid() && Within() && State() == OrderBooks.After(inbox[..n])
      {
        Receive(inbox[n]);
        assert inbox[..n + 1][..n] == inbox[..n];
      }
      assert inbox[..|inbox|] == inbox;
    }
  }

  // ---- the coordinator ----

  /** What shard `i` is sent of a record that meets no barrier. */
  function Routed(x: Bot, rec: OrderRecord, i: nat): seq<Message>
    requires x.shards != []
  {
    if Target(x, rec) == Some(i) then [Message.Rec(rec)] else []
  }

  /** What shard `i` is sent for an input. */
  function Mail(x: Bot, input: OrderSpec.Input, i: nat): seq<Message>
    requires x.shards != []
  {
    match input
    case SocketDrop => [Drop]
    case Incoming(rec) =>
      if MeetsBarrier(x, rec) then [Wipe(rec.ch)] + Routed(Barred(x, rec), rec, i) else Routed(x, rec, i)
  }

  function StepAll(s: OrderShard, mail: seq<Message>): OrderShard
    decreases |mail|
  {
    if mail == [] then s else StepAll(Step(s, mail[0]), mail[1..])
  }

  lemma StepFirst(s: OrderShard, m: Message, rest: seq<Message>)
    ensures StepAll(s, [m] + rest) == StepAll(Step(s, m), rest)
  {
    assert ([m] + rest)[1..] == rest;
  }

  lemma RoutedDrives(x: Bot, rec: OrderRecord, i: nat)
    requires i < |x.shards|
    ensures Classified(x, rec).shards[i] == StepAll(x.shards[i], Routed(x, rec, i))
  {
    assert [Message.Rec(rec)] + [] == [Message.Rec(rec)];
    StepFirst(x.shards[i], Message.Rec(rec), []);
  }

  /** A bot's shards move by their mail and by nothing else. */
  lemma MailDrivesTheBot(x: Bot, input: OrderSpec.Input, i: nat)
    requires i < |x.shards|
    ensures Dispatch(x, input).shards[i] == StepAll(x.shards[i], Mail(x, input, i))
  {
    match input
    case SocketDrop =>
      assert [Drop] + [] == [Drop];
      StepFirst(x.shards[i], Drop, []);
    case Incoming(rec) =>
      if MeetsBarrier(x, rec) {
        RoutedDrives(Barred(x, rec), rec, i);
        StepFirst(x.shards[i], Wipe(rec.ch), Routed(Barred(x, rec), rec, i));
      } else {
        RoutedDrives(x, rec, i);
      }
  }

  /** Where a record goes depends on the routes and the number of shards. */
  lemma SameFront(x: Bot, y: Bot, rec: OrderRecord, i: nat)
    requires x.shards != [] && |y.shards| == |x.shards| && y.routes == x.routes
    ensures RoutesAfter(y, rec) == RoutesAfter(x, rec) && Routed(y, rec, i) == Routed(x, rec, i)
  {
  }

  class LiveOrderCoordinator {
    const n: nat
    var routes: map<nat, Route>
    var resetCount: map<nat, nat>
    var inboxes: seq<seq<Message>>

    /** The coordinator's half of the bot. */
    ghost function Front(): Bot
      reads this
    {
      Bot(routes, resetCount, seq(n, i => NO_SHARD))
    }

    ghost predicate Valid()
      reads this
    {
      n > 0 && |inboxes| == n && forall ch :: ch in routes ==> routes[ch].shard < n
    }

    constructor (n: nat)
      requires n > 0
      ensures Valid() && Front() == NewBot(n) && inboxes == seq(n, i => [])
    {
      this.n := n;
      routes, resetCount := map[], map[];
      inboxes := seq(n, i => []);
    }

    method SendTo(idx: nat, m: Message)
      requires Valid() && idx < n
      modifies this`inboxes
      ensures Valid() && forall i :: 0 <= i < n ==> inboxes[i] == old(inboxes)[i] + if i == idx then [m] else []
    {
      inboxes := inboxes[idx := inboxes[idx] + [m]];
    }

    method SendToAll(m: Message)
      requires Valid()
      modifies this`inboxes
      ensures Valid() && forall i :: 0 <= i < n ==> inboxes[i] == old(inboxes)[i] + [m]
    {
      for i := 0 to n
        invariant |inboxes| == n && forall j :: 0 <= j < n ==> inboxes[j] == old(inboxes)[j] + if j < i then [m] else []
      {
        inboxes := inboxes[i := inboxes[i] + [m]];
      }
    }

    /** Drain every shard and wipe the channel. */
    method RunResetBarrier(held: OrderRecord)
      requires Valid()
      modifies this
      ensures Valid() && routes == old(routes) - {held.ch} && resetCount == old(resetCount)[held.ch := held.resetCount]
      ensures forall i :: 0 <= i < n ==> inboxes[i] == old(inboxes)[i] + [Wipe(held.ch)]
    {
      SendToAll(Wipe(held.ch));
      routes := routes - {held.ch};
      resetCount := resetCount[held.ch := held.resetCount];
    }

    method Dispatch(rec: OrderRecord)
      requires Valid()
      modifies this
      ensures Valid()
      ensures var y := OrderSpec.Dispatch(old(Front()), Incoming(rec));
              routes == y.routes && resetCount == y.resetCount
      ensures forall i :: 0 <= i < n ==> inboxes[i] == old(inboxes)[i] + Mail(old(Front()), Incoming(rec), i)
    {
      ghost var x := Front();
      if rec.ch in resetCount && resetCount[rec.ch] != rec.resetCount {
        RunResetBarrier(rec);
        ghost var y := Barred(x, rec);
        forall i ensures RoutesAfter(Front(), rec) == RoutesAfter(y, rec) && Routed(Front(), rec, i) == Routed(y, rec, i) {
          SameFront(y, Front(), rec, i);
        }
        Classify(rec);
        return;
      }
      if rec.ch !in resetCount {
        resetCount := resetCount[rec.ch := rec.resetCount];
      }
      forall i ensures RoutesAfter(Front(), rec) == RoutesAfter(x, rec) && Routed(Front(), rec, i) == Routed(x, rec, i) {
        SameFront(x, Front(), rec, i);
      }
      Classify(rec);
    }

    /** Route one record by its type. */
    method Classify(rec: OrderRecord)
      requires Valid() && rec.ch in resetCount
      modifies this`routes, this`inboxes
      ensures Valid() && routes == RoutesAfter(old(Front()), rec)
      ensures forall i :: 0 <= i < n ==>
                inboxes[i] == old(inboxes)[i] + Routed(old(Front()), rec, i)
    {
      match rec {
        case GroupBegin(ch, inst, _, h) =>
          var idx := inst % n;
          routes := routes[ch := Route(inst, h.id, idx)];
          SendTo(idx, Message.Rec(rec));
        case GroupOrder(ch, _, _, id, _, _) =>
          if ch in routes && routes[ch].id == id {
            SendTo(routes[ch].shard, Message.Rec(rec));
          }
        case GroupEnd(ch, inst, _, id, _) =>
          SendTo(inst % n, Message.Rec(rec));
          if ch in routes && routes[ch].inst == inst && routes[ch].id == id {
            routes := routes - {ch};
          }
        case Channel(_, _, _) =>
        case _ => SendTo(rec.inst % n, Message.Rec(rec));
      }
    }

    method OnDisconnect()
      requires Valid()
      modifies this
      ensures Valid() && routes == map[] && resetCount == old(resetCount)
      ensures forall i :: 0 <= i < n ==> inboxes[i] == old(inboxes)[i] + Mail(old(Front()), SocketDrop, i)
    {
      routes := map[];
      SendToAll(Drop);
    }
  }
}
