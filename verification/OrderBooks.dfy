/** What a serving Market-by-Order book is made of, over every run of a shard: one
    complete snapshot, and the contiguous deltas behind it. */
module OrderBooks {
  import opened Wrappers
  import InstrumentSpec
  import ShardSpec
  import O = OrderSpec

  type Key = ShardSpec.Key

  type Delta = O.OrderDelta

  datatype Message = Rec(rec: O.OrderRecord) | Wipe(ch: nat) | Drop

  function Step(s: O.OrderShard, m: Message): O.OrderShard {
    match m
    case Rec(rec) => O.HandleRecord(s, rec)
    case Wipe(ch) => O.WipeChannel(s, ch)
    case Drop => O.DropShadows(s)
  }

  /** The shard after its inbox. */
  function After(inbox: seq<Message>): O.OrderShard {
    if inbox == [] then O.NO_SHARD else Step(After(inbox[..|inbox| - 1]), inbox[|inbox| - 1])
  }

  // ---- a book from a snapshot and deltas ----

  function Folded(b: O.Orders, ds: seq<Delta>): O.Orders {
    if ds == [] then b else O.Apply(Folded(b, ds[..|ds| - 1]), ds[|ds| - 1].op)
  }

  /** An execution takes exactly its quantity from the resting order, or all that is left
      with the order itself, and touches no other. */
  lemma ExecutionTakes(side: map<nat, O.Order>, id: nat, fullFill: bool, qty: nat, other: nat)
    requires id in side
    ensures var r := O.Fill(side, id, fullFill, qty);
            && (id !in r <==> fullFill || qty >= side[id].qty)
            && (id in r ==> r[id] == side[id].(qty := r[id].qty) && r[id].qty + qty == side[id].qty)
            && (other != id ==> (other in r <==> other in side) && (other in r ==> r[other] == side[other]))
  {
  }

  predicate Contiguous(last: nat, ds: seq<Delta>) {
    forall j :: 0 <= j < |ds| ==> ds[j].piSeq == last + 1 + j
  }

  /** The book is `base` with `ds` applied, which take its seq to the tracker. */
  predicate BuiltFrom(i: O.OrderInst, base: O.Orders, last: nat, ds: seq<Delta>) {
    i.book == Folded(base, ds) && Contiguous(last, ds) && i.lastSeq == last + |ds|
  }

  /** Pending deltas sit under their own seq. */
  predicate Keyed(i: O.OrderInst) {
    forall n :: n in i.pending ==> i.pending[n].piSeq == n
  }

  lemma BuiltOn(i: O.OrderInst, base: O.Orders, last: nat, ds: seq<Delta>, d: Delta)
    requires BuiltFrom(i, base, last, ds) && d.piSeq == i.lastSeq + 1
    ensures BuiltFrom(O.ApplyOne(i, d), base, last, ds + [d])
  {
    assert (ds + [d])[..|ds|] == ds;
  }

  lemma {:induction false} DrainBuilds(i: O.OrderInst, base: O.Orders, last: nat, ds: seq<Delta>)
    requires BuiltFrom(i, base, last, ds) && Keyed(i)
    ensures BuiltFrom(O.Drain(i), base, last, ds + O.DrainRun(i)) && Keyed(O.Drain(i))
    ensures O.Drain(i).status == i.status && O.Drain(i).shadow == i.shadow
    ensures forall n :: n in O.Drain(i).pending ==> n in i.pending && O.Drain(i).pending[n] == i.pending[n]
    ensures forall d :: d in O.DrainRun(i) ==> d.piSeq in i.pending && i.pending[d.piSeq] == d
    decreases i.pending.Keys
  {
    var next := i.lastSeq + 1;
    if next in i.pending {
      var d, j := i.pending[next], O.DrainStep(i);
      BuiltOn(i.(pending := i.pending - {next}), base, last, ds, d);
      DrainBuilds(j, base, last, ds + [d]);
      assert ds + [d] + O.DrainRun(j) == ds + O.DrainRun(i);
    } else {
      assert ds + [] == ds;
    }
  }

  /** All the window holds, and `ds`, come from `from`. */
  ghost predicate Sourced(i: O.OrderInst, from: iset<Delta>) {
    Keyed(i) && forall n :: n in i.pending ==> i.pending[n] in from
  }

  ghost predicate AllFrom(ds: seq<Delta>, from: iset<Delta>) {
    forall d :: d in ds ==> d in from
  }

  /** `o` applied deltas from `from` on top of `ds`, and its book is built from all. */
  ghost predicate Extends(i: O.OrderInst, o: O.Delivery, base: O.Orders, last: nat, ds: seq<Delta>, from: iset<Delta>) {
    && BuiltFrom(o.inst, base, last, ds + o.applied) && Sourced(o.inst, from) && AllFrom(o.applied, from)
    && o.inst.shadow == i.shadow
  }

  lemma NextBuilds(i: O.OrderInst, d: Delta, base: O.Orders, last: nat, ds: seq<Delta>, from: iset<Delta>)
    requires BuiltFrom(i, base, last, ds) && Sourced(i, from) && d in from && d.piSeq == i.lastSeq + 1
    ensures Extends(i, O.Deliver(i, d), base, last, ds, from) && O.Deliver(i, d).inst.status == i.status
  {
    var j := O.ApplyOne(i, d);
    BuiltOn(i, base, last, ds, d);
    DrainBuilds(j, base, last, ds + [d]);
    assert ds + [d] + O.DrainRun(j) == ds + ([d] + O.DrainRun(j));
  }

  lemma DeliverBuilds(i: O.OrderInst, d: Delta, base: O.Orders, last: nat, ds: seq<Delta>, from: iset<Delta>)
    requires BuiltFrom(i, base, last, ds) && Sourced(i, from) && d in from
    ensures var o := O.Deliver(i, d);
            Extends(i, o, base, last, ds, from) && o.inst.status == if o.demoted then InstrumentSpec.Gap else i.status
  {
    if d.piSeq == i.lastSeq + 1 {
      NextBuilds(i, d, base, last, ds, from);
    } else {
      assert ds + [] == ds;
    }
  }

  lemma ExtendsBoth(i: O.OrderInst, now: O.Delivery, rest: O.Delivery, both: O.Delivery, base: O.Orders, last: nat,
                    ds: seq<Delta>, from: iset<Delta>)
    requires Extends(i, now, base, last, ds, from) && Extends(now.inst, rest, base, last, ds + now.applied, from)
    requires both.inst == rest.inst && both.applied == now.applied + rest.applied
    ensures Extends(i, both, base, last, ds, from)
  {
    assert ds + now.applied + rest.applied == ds + both.applied;
  }

  lemma {:induction false} ReplayBuilds(i: O.OrderInst, buf: seq<Delta>, base: O.Orders, last: nat, ds: seq<Delta>,
                                        from: iset<Delta>)
    requires BuiltFrom(i, base, last, ds) && Sourced(i, from) && AllFrom(buf, from)
    ensures Extends(i, O.Replay(i, buf), base, last, ds, from)
    decreases |buf|
  {
    if buf == [] {
      assert ds + [] == ds;
    } else {
      assert buf[0] in buf && AllFrom(buf[1..], from);
      if buf[0].mseq <= i.lastMkt {
        ReplayBuilds(i, buf[1..], base, last, ds, from);
      } else {
        var now := O.Deliver(i, buf[0]);
        DeliverBuilds(i, buf[0], base, last, ds, from);
        ReplayBuilds(now.inst, buf[1..], base, last, ds + now.applied, from);
        ExtendsBoth(i, now, O.Replay(now.inst, buf[1..]), O.Replay(i, buf), base, last, ds, from);
      }
    }
  }

  // ---- replay over a buffer that shifts ----

  /** What a replay may read. A demotion puts a delta back into the buffer while it is
      being walked, and may move the entries behind it: up to and including the first
      entry that demotes, the walk reads the buffer; after it, any entries of it. */
  ghost predicate MayRead(i: O.OrderInst, buf: seq<Delta>, seen: seq<Delta>) {
    && |seen| == |buf| && (forall d :: d in seen ==> d in buf)
    && forall j :: 0 <= j < |buf| && !O.Replay(i, buf[..j]).demoted ==> seen[j] == buf[j]
  }

  lemma {:induction false} DemotedStays(i: O.OrderInst, buf: seq<Delta>, j: nat)
    requires j <= |buf| && O.Replay(i, buf[..j]).demoted
    ensures O.Replay(i, buf).demoted
    decreases |buf|
  {
    if j > 0 {
      assert buf[..j][0] == buf[0] && buf[..j][1..] == buf[1..][..j - 1];
      if buf[0].mseq <= i.lastMkt {
        DemotedStays(i, buf[1..], j - 1);
      } else if !O.Deliver(i, buf[0]).demoted {
        DemotedStays(O.Deliver(i, buf[0]).inst, buf[1..], j - 1);
      }
    }
  }

  /** Whatever it reads, what a replay leaves is built from deltas that arrived; and
      without a demotion there is only the buffer to read. */
  lemma AnyReadingBuilds(i: O.OrderInst, buf: seq<Delta>, seen: seq<Delta>, base: O.Orders, last: nat, ds: seq<Delta>,
                         from: iset<Delta>)
    requires BuiltFrom(i, base, last, ds) && Sourced(i, from) && AllFrom(buf, from) && MayRead(i, buf, seen)
    ensures Extends(i, O.Replay(i, seen), base, last, ds, from)
    ensures !O.Replay(i, buf).demoted ==> seen == buf
  {
    ReplayBuilds(i, seen, base, last, ds, from);
    if !O.Replay(i, buf).demoted {
      forall j | 0 <= j < |buf| ensures seen[j] == buf[j] {
        if O.Replay(i, buf[..j]).demoted {
          DemotedStays(i, buf, j);
        }
      }
    }
  }

  // ---- snapshots off the wire ----

  datatype Listed = Listed(id: nat, order: O.Order)

  /** The group whose begin an instrument took last, and the order records it was
      handed while that group was open. */
  datatype Wired = Wired(header: O.OrderHeader, orders: seq<Listed>)

  function OrdersOf(orders: seq<Listed>): O.Orders {
    if orders == [] then O.NO_ORDERS
    else
      var n := |orders| - 1;
      O.Place(OrdersOf(orders[..n]), orders[n].id, orders[n].order)
  }

  /** The group open on a channel, as its begins and ends tell. */
  function OpenOn(inbox: seq<Message>, ch: nat): Option<O.OrderGroup> {
    if inbox == [] then None
    else
      var before := OpenOn(inbox[..|inbox| - 1], ch);
      match inbox[|inbox| - 1]
      case Wipe(c) => if c == ch then None else before
      case Drop => None
      case Rec(rec) =>
        if rec.ch != ch then before
        else if rec.GroupBegin? then Some(O.OrderGroup(rec.At(), rec.header.id))
        else if rec.GroupEnd? && before == Some(O.OrderGroup(rec.At(), rec.id)) then None
        else before
  }

  lemma {:induction false} PointerIsTheWire(inbox: seq<Message>, ch: nat)
    ensures O.Get(After(inbox).open, ch) == OpenOn(inbox, ch)
  {
    if inbox != [] {
      var before, m := inbox[..|inbox| - 1], inbox[|inbox| - 1];
      PointerIsTheWire(before, ch);
      PointerStep(After(before), m, ch);
    }
  }

  lemma PointerStep(s: O.OrderShard, m: Message, ch: nat)
    ensures var before := O.Get(s.open, ch);
            O.Get(Step(s, m).open, ch) ==
            match m
            case Wipe(c) => if c == ch then None else before
            case Drop => None
            case Rec(rec) =>
              if rec.ch != ch then before
              else if rec.GroupBegin? then Some(O.OrderGroup(rec.At(), rec.header.id))
              else if rec.GroupEnd? && before == Some(O.OrderGroup(rec.At(), rec.id)) then None
              else before
  {
  }

  /** The group on the wire of `k` after one message, with `open` open on its channel and
      `ready` telling whether the instrument serves. No shadow plays a part. */
  function Collected(w: Option<Wired>, open: Option<O.OrderGroup>, ready: bool, m: Message, k: Key): Option<Wired> {
    if !m.Rec? then w
    else
      match m.rec
      case GroupBegin(_, _, _, h) => if m.rec.At() == k && !ready then Some(Wired(h, [])) else w
      case GroupOrder(_, _, _, id, orderId, o) =>
        if w.Some? && w.value.header.id == id && open == Some(O.OrderGroup(k, id))
        then Some(w.value.(orders := w.value.orders + [Listed(orderId, o)])) else w
      case _ => w
  }

  function ChannelOf(m: Message): nat {
    if m.Rec? then m.rec.ch else 0
  }

  function WireOf(inbox: seq<Message>, k: Key): Option<Wired> {
    if inbox == [] then None
    else
      var before, m := inbox[..|inbox| - 1], inbox[|inbox| - 1];
      Collected(WireOf(before, k), OpenOn(before, ChannelOf(m)), After(before).InstFor(k).status.Ready?, m, k)
  }

  /** A shadow is what came over the wire. */
  predicate Backed(w: Option<Wired>, i: O.OrderInst) {
    i.shadow.Some? ==>
      w.Some? && i.shadow.value == O.OrderShadow(w.value.header, |w.value.orders|, OrdersOf(w.value.orders))
  }

  // ---- the ledger of a run ----

  /** The snapshot an instrument last committed, and what it applied since. */
  datatype Ledger = Ledger(base: Wired, ds: seq<Delta>)

  function Entered(l: Option<Ledger>, w: Option<Wired>, s: O.OrderShard, m: Message, k: Key): Option<Ledger> {
    match m
    case Wipe(ch) => if k.ch == ch then None else l
    case Drop => l
    case Rec(rec) =>
      if rec.At() != k || k !in s.insts then l
      else
        match rec
        case OrderChange(_, _, _, d) =>
          if s.insts[k].status.Ready? && l.Some?
          then Some(l.value.(ds := l.value.ds + O.Deliver(s.insts[k], d).applied)) else l
        case GroupEnd(_, _, _, id, anchor) =>
          if O.Commits(s.insts[k], id, anchor) && w.Some?
          then Some(Ledger(w.value, O.Replay(O.Commit(s.insts[k]), s.Buf(k)).applied)) else l
        case BookReset(_, _, _, _) => None
        case _ => l
  }

  function LedgerOf(inbox: seq<Message>, k: Key): Option<Ledger> {
    if inbox == [] then None
    else
      var before := inbox[..|inbox| - 1];
      Entered(LedgerOf(before, k), WireOf(before, k), After(before), inbox[|inbox| - 1], k)
  }

  /** The deltas that ever arrived for an instrument. */
  ghost function Arrived(inbox: seq<Message>, k: Key): iset<Delta> {
    iset d | HasArrived(inbox, k, d)
  }

  ghost predicate HasArrived(inbox: seq<Message>, k: Key, d: Delta) {
    exists m :: m in inbox && Carries(m, k, d)
  }

  predicate Carries(m: Message, k: Key, d: Delta) {
    m.Rec? && m.rec.OrderChange? && m.rec.At() == k && m.rec.delta == d
  }

  /** A ready instrument holds no shadow, and its book is a complete snapshot with the
      contiguous run of deltas since. */
  ghost predicate Serves(i: O.OrderInst, l: Option<Ledger>, from: iset<Delta>) {
    i.status.Ready? ==>
      && i.shadow.None? && l.Some? && |l.value.base.orders| == l.value.base.header.total
      && BuiltFrom(i, OrdersOf(l.value.base.orders), l.value.base.header.last, l.value.ds) && AllFrom(l.value.ds, from)
  }

  ghost predicate KeyOk(s: O.OrderShard, k: Key, l: Option<Ledger>, from: iset<Delta>) {
    Serves(s.InstFor(k), l, from) && Sourced(s.InstFor(k), from) && AllFrom(s.Buf(k), from)
  }

  lemma {:induction false} InsertFrom(buf: seq<Delta>, d: Delta, from: iset<Delta>)
    requires AllFrom(buf, from) && d in from
    ensures AllFrom(O.InsertSorted(buf, d), from)
  {
    if !(buf == [] || buf[|buf| - 1].mseq <= d.mseq) {
      InsertFrom(buf[..|buf| - 1], d, from);
    }
  }

  lemma BufferedFrom(buf: seq<Delta>, d: Delta, from: iset<Delta>)
    requires AllFrom(buf, from) && d in from
    ensures AllFrom(O.Buffered(buf, d), from)
  {
    InsertFrom(if |buf| >= O.MAX_DELTAS then buf[1..] else buf, d, from);
  }

  lemma {:induction false} LaterFrom(buf: seq<Delta>, anchor: nat, from: iset<Delta>)
    requires AllFrom(buf, from)
    ensures AllFrom(O.Later(buf, anchor), from)
  {
    if buf != [] {
      LaterFrom(buf[1..], anchor, from);
    }
  }

  lemma ChangeOk(s: O.OrderShard, rec: O.OrderRecord, l: Option<Ledger>, w: Option<Wired>, from: iset<Delta>)
    requires rec.OrderChange? && KeyOk(s, rec.At(), l, from) && rec.delta in from
    ensures KeyOk(O.HandleRecord(s, rec), rec.At(), Entered(l, w, s, Rec(rec), rec.At()), from)
  {
    var k, i := rec.At(), s.InstFor(rec.At());
    BufferedFrom(s.Buf(k), rec.delta, from);
    if k in s.insts && i.status.Ready? {
      DeliverBuilds(i, rec.delta, OrdersOf(l.value.base.orders), l.value.base.header.last, l.value.ds, from);
    }
  }

  /** A commit and its replay. */
  lemma CommitServes(i: O.OrderInst, w: Wired, buf: seq<Delta>, from: iset<Delta>)
    requires i.shadow.Some? && i.shadow.value.received == i.shadow.value.header.total && Backed(Some(w), i)
    requires Sourced(i, from) && AllFrom(buf, from)
    ensures var o := O.Replay(O.Commit(i), buf);
            Serves(o.inst, Some(Ledger(w, o.applied)), from) && Sourced(o.inst, from)
  {
    var sh := i.shadow.value;
    ReplayBuilds(O.Commit(i), buf, sh.book, sh.header.last, [], from);
    assert [] + O.Replay(O.Commit(i), buf).applied == O.Replay(O.Commit(i), buf).applied;
  }

  lemma EndOk(s: O.OrderShard, rec: O.OrderRecord, l: Option<Ledger>, w: Option<Wired>, from: iset<Delta>)
    requires rec.GroupEnd? && KeyOk(s, rec.At(), l, from) && Backed(w, s.InstFor(rec.At()))
    ensures KeyOk(O.HandleRecord(s, rec), rec.At(), Entered(l, w, s, Rec(rec), rec.At()), from)
  {
    var k, i := rec.At(), s.InstFor(rec.At());
    if k in s.insts && O.Commits(i, rec.id, rec.anchor) {
      CommitServes(i, w.value, s.Buf(k), from);
    }
  }

  lemma ResetOk(s: O.OrderShard, rec: O.OrderRecord, l: Option<Ledger>, w: Option<Wired>, from: iset<Delta>)
    requires rec.BookReset? && KeyOk(s, rec.At(), l, from)
    ensures KeyOk(O.HandleRecord(s, rec), rec.At(), Entered(l, w, s, Rec(rec), rec.At()), from)
  {
    LaterFrom(s.Buf(rec.At()), rec.anchor, from);
  }

  lemma OrderOk(s: O.OrderShard, rec: O.OrderRecord, k: Key, l: Option<Ledger>, w: Option<Wired>, from: iset<Delta>)
    requires rec.GroupOrder? && KeyOk(s, k, l, from)
    ensures KeyOk(O.HandleRecord(s, rec), k, Entered(l, w, s, Rec(rec), k), from)
  {
  }

  /** A record of another instrument, or one that touches no book. */
  lemma OtherOk(s: O.OrderShard, rec: O.OrderRecord, k: Key, l: Option<Ledger>, w: Option<Wired>, from: iset<Delta>)
    requires rec.GroupBegin? || rec.Defined? || rec.Channel? || (rec.At() != k && !rec.GroupOrder?)
    requires KeyOk(s, k, l, from)
    ensures KeyOk(O.HandleRecord(s, rec), k, Entered(l, w, s, Rec(rec), k), from)
  {
    if rec.At() == k && rec.GroupBegin? {
      BeginOk(s, rec, l, from);
    } else {
      var t := O.HandleRecord(s, rec);
      assert t.InstFor(k) == s.InstFor(k) && t.Buf(k) == s.Buf(k);
    }
  }

  lemma BeginOk(s: O.OrderShard, rec: O.OrderRecord, l: Option<Ledger>, from: iset<Delta>)
    requires rec.GroupBegin? && KeyOk(s, rec.At(), l, from)
    ensures KeyOk(O.HandleRecord(s, rec), rec.At(), l, from)
  {
  }

  lemma StepOk(s: O.OrderShard, m: Message, k: Key, l: Option<Ledger>, w: Option<Wired>, from: iset<Delta>)
    requires KeyOk(s, k, l, from) && Backed(w, s.InstFor(k)) && forall d :: Carries(m, k, d) ==> d in from
    ensures KeyOk(Step(s, m), k, Entered(l, w, s, m, k), from)
  {
    match m
    case Rec(rec) =>
      assert rec.OrderChange? && rec.At() == k ==> Carries(m, k, rec.delta);
      if rec.GroupOrder? {
        OrderOk(s, rec, k, l, w, from);
      } else if rec.At() == k && rec.OrderChange? {
        ChangeOk(s, rec, l, w, from);
      } else if rec.At() == k && rec.GroupEnd? {
        EndOk(s, rec, l, w, from);
      } else if rec.At() == k && rec.BookReset? {
        ResetOk(s, rec, l, w, from);
      } else {
        OtherOk(s, rec, k, l, w, from);
      }
    case Wipe(ch) =>
    case Drop =>
  }

  // ---- the wire behind a shadow ----

  lemma {:induction false} DrainShadow(i: O.OrderInst)
    ensures O.Drain(i).shadow == i.shadow && O.Drain(i).status == i.status
    decreases i.pending.Keys
  {
    if i.lastSeq + 1 in i.pending {
      DrainShadow(O.DrainStep(i));
    }
  }

  lemma DeliverShadow(i: O.OrderInst, d: Delta)
    ensures O.Deliver(i, d).inst.shadow == i.shadow && (O.Deliver(i, d).inst.status.Ready? ==> i.status.Ready?)
  {
    DrainShadow(O.ApplyOne(i, d));
  }

  lemma {:induction false} ReplayShadow(i: O.OrderInst, buf: seq<Delta>)
    ensures O.Replay(i, buf).inst.shadow == i.shadow
    decreases |buf|
  {
    if buf != [] {
      if buf[0].mseq <= i.lastMkt {
        ReplayShadow(i, buf[1..]);
      } else {
        DeliverShadow(i, buf[0]);
        ReplayShadow(O.Deliver(i, buf[0]).inst, buf[1..]);
      }
    }
  }

  lemma OrderedBacked(i: O.OrderInst, id: nat, orderId: nat, o: O.Order, w: Option<Wired>)
    requires Backed(w, i)
    ensures Backed(if w.Some? && w.value.header.id == id
                   then Some(w.value.(orders := w.value.orders + [Listed(orderId, o)])) else w,
                   O.AddOrder(i, id, orderId, o))
  {
    if w.Some? {
      var all := w.value.orders + [Listed(orderId, o)];
      assert all[..|all| - 1] == w.value.orders;
    }
  }

  /** A record that is no begin and no order builds no shadow. */
  lemma ShadowKept(s: O.OrderShard, rec: O.OrderRecord, k: Key)
    requires !rec.GroupBegin? && !rec.GroupOrder?
    ensures var t := O.HandleRecord(s, rec);
            t.InstFor(k).shadow.Some? ==> t.InstFor(k).shadow == s.InstFor(k).shadow
  {
    var i := s.InstFor(k);
    if rec.OrderChange? {
      DeliverShadow(i, rec.delta);
    } else if rec.GroupEnd? && rec.At() == k && k in s.insts && O.Commits(i, rec.id, rec.anchor) {
      ReplayShadow(O.Commit(i), s.ShareOf(k).Deltas());
    }
  }

  lemma OrderBacked(s: O.OrderShard, rec: O.OrderRecord, k: Key, w: Option<Wired>)
    requires rec.GroupOrder? && Backed(w, s.InstFor(k))
    ensures Backed(Collected(w, O.Get(s.open, rec.ch), s.InstFor(k).status.Ready?, Rec(rec), k),
                   O.HandleRecord(s, rec).InstFor(k))
  {
    if O.Get(s.open, rec.ch) == Some(O.OrderGroup(k, rec.id)) {
      OrderedBacked(s.InstFor(k), rec.id, rec.orderId, rec.order, w);
    }
  }

  lemma StepBacked(s: O.OrderShard, m: Message, k: Key, w: Option<Wired>)
    requires Backed(w, s.InstFor(k))
    ensures Backed(Collected(w, O.Get(s.open, ChannelOf(m)), s.InstFor(k).status.Ready?, m, k), Step(s, m).InstFor(k))
  {
    if m.Rec? {
      if m.rec.GroupOrder? {
        OrderBacked(s, m.rec, k, w);
      } else if !m.rec.GroupBegin? {
        ShadowKept(s, m.rec, k);
      }
    }
  }

  /** Over any run, an instrument's shadow is the order records handed to it since the
      begin it took, each once and in order. */
  lemma {:induction false} ShadowIsTheWire(inbox: seq<Message>, k: Key)
    ensures Backed(WireOf(inbox, k), After(inbox).InstFor(k))
  {
    if inbox != [] {
      var before, m := inbox[..|inbox| - 1], inbox[|inbox| - 1];
      ShadowIsTheWire(before, k);
      PointerIsTheWire(before, ChannelOf(m));
      StepBacked(After(before), m, k, WireOf(before, k));
    }
  }

  // ---- whole runs ----

  lemma KeyOkMore(s: O.OrderShard, k: Key, l: Option<Ledger>, from: iset<Delta>, more: iset<Delta>)
    requires KeyOk(s, k, l, from) && from <= more
    ensures KeyOk(s, k, l, more)
  {
  }

  lemma {:induction false} AlwaysOk(inbox: seq<Message>, k: Key)
    ensures KeyOk(After(inbox), k, LedgerOf(inbox, k), Arrived(inbox, k))
  {
    if inbox != [] {
      var before, m := inbox[..|inbox| - 1], inbox[|inbox| - 1];
      AlwaysOk(before, k);
      KeyOkMore(After(before), k, LedgerOf(before, k), Arrived(before, k), Arrived(inbox, k));
      ShadowIsTheWire(before, k);
      StepOk(After(before), m, k, LedgerOf(before, k), WireOf(before, k), Arrived(inbox, k));
    }
  }

  /** Over any run at all: a ready instrument holds no shadow, and its book is the
      orders of the last snapshot it committed, as many as that announced, each as its
      record came in, with contiguous deltas folded on up to its tracker, every one of
      which had arrived. */
  lemma ReadyBookIsSnapshotAndDeltas(inbox: seq<Message>, k: Key)
    requires k in After(inbox).insts && After(inbox).insts[k].status.Ready?
    ensures After(inbox).insts[k].shadow.None? && LedgerOf(inbox, k).Some?
    ensures var i, l := After(inbox).insts[k], LedgerOf(inbox, k).value;
            && |l.base.orders| == l.base.header.total
            && i.book == Folded(OrdersOf(l.base.orders), l.ds) && i.lastSeq == l.base.header.last + |l.ds|
            && Contiguous(l.base.header.last, l.ds) && AllFrom(l.ds, Arrived(inbox, k))
  {
    AlwaysOk(inbox, k);
  }
}
