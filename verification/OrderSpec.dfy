/** The Market-by-Order bot as values: order books, instruments, shards, and the
    coordinator in front of them. */
module OrderSpec {
  import opened Wrappers
  import opened InstrumentSpec
  import opened ShardSpec

  // ---- order books ----

  datatype Order = Order(ask: bool, flags: nat, price: int, qty: nat)

  datatype Op = Add(id: nat, order: Order) | Cancel(id: nat) | Execute(id: nat, fullFill: bool, qty: nat)

  datatype Orders = Orders(bids: map<nat, Order>, asks: map<nat, Order>)

  const NO_ORDERS := Orders(map[], map[])

  function Place(b: Orders, id: nat, o: Order): Orders {
    if o.ask then b.(asks := b.asks[id := o]) else b.(bids := b.bids[id := o])
  }

  /** What an execution leaves of one side: nothing of the order once it is filled. */
  function Fill(side: map<nat, Order>, id: nat, fullFill: bool, qty: nat): map<nat, Order>
    requires id in side
  {
    if fullFill || qty >= side[id].qty then side - {id}
    else side[id := side[id].(qty := side[id].qty - qty)]
  }

  function Apply(b: Orders, op: Op): Orders {
    match op
    case Add(id, o) => Place(b, id, o)
    case Cancel(id) => Orders(b.bids - {id}, b.asks - {id})
    case Execute(id, fullFill, qty) =>
      if id in b.bids then b.(bids := Fill(b.bids, id, fullFill, qty))
      else if id in b.asks then b.(asks := Fill(b.asks, id, fullFill, qty))
      else b
  }

  // ---- one instrument ----

  datatype OrderDelta = OrderDelta(mseq: nat, piSeq: nat, op: Op)

  datatype OrderHeader = OrderHeader(id: nat, anchor: nat, total: nat, last: nat)

  datatype OrderShadow = OrderShadow(header: OrderHeader, received: nat, book: Orders)

  datatype OrderInst = OrderInst(
    status: Status,
    book: Orders,
    lastMkt: nat,
    lastSeq: nat,
    shadow: Option<OrderShadow>,
    pending: map<nat, OrderDelta>)

  const NEW := OrderInst(AwaitingSnapshot, NO_ORDERS, 0, 0, None, map[])

  const MAX_DELTAS := 10000

  function ApplyOne(i: OrderInst, d: OrderDelta): OrderInst {
    i.(book := Apply(i.book, d.op), lastMkt := d.mseq, lastSeq := d.piSeq)
  }

  function DrainStep(i: OrderInst): OrderInst
    requires i.lastSeq + 1 in i.pending
  {
    ApplyOne(i.(pending := i.pending - {i.lastSeq + 1}), i.pending[i.lastSeq + 1])
  }

  function Drain(i: OrderInst): OrderInst
    decreases i.pending.Keys
  {
    if i.lastSeq + 1 in i.pending then Drain(DrainStep(i)) else i
  }

  function DrainRun(i: OrderInst): seq<OrderDelta>
    decreases i.pending.Keys
  {
    if i.lastSeq + 1 in i.pending then [i.pending[i.lastSeq + 1]] + DrainRun(DrainStep(i)) else []
  }

  /** The instrument after a delta, what of it was applied, and whether it demoted. */
  datatype Delivery = Delivery(inst: OrderInst, applied: seq<OrderDelta>, demoted: bool)

  /** applyDeltaToReady. It does not look at the status. */
  function Deliver(i: OrderInst, d: OrderDelta): Delivery {
    var expected := i.lastSeq + 1;
    if d.piSeq < expected then Delivery(i, [], false)
    else if d.piSeq > expected then
      var window := i.pending[d.piSeq := d];
      if |window| <= REORDER_WINDOW && d.piSeq - expected <= REORDER_WINDOW
      then Delivery(i.(pending := window), [], false)
      else Delivery(i.(status := Gap, pending := map[]), [], true)
    else
      var j := ApplyOne(i, d);
      Delivery(Drain(j), [d] + DrainRun(j), false)
  }

  /** Replay goes on whatever a delta did, and what it would buffer again is dropped
      with the buffer. */
  function Replay(i: OrderInst, buf: seq<OrderDelta>): Delivery
    decreases |buf|
  {
    if buf == [] then Delivery(i, [], false)
    else if buf[0].mseq <= i.lastMkt then Replay(i, buf[1..])
    else
      var now := Deliver(i, buf[0]);
      var rest := Replay(now.inst, buf[1..]);
      Delivery(rest.inst, now.applied + rest.applied, now.demoted || rest.demoted)
  }

  function BeginGroup(i: OrderInst, h: OrderHeader): OrderInst {
    if i.status == Ready then i else i.(shadow := Some(OrderShadow(h, 0, NO_ORDERS)))
  }

  function AddOrder(i: OrderInst, id: nat, orderId: nat, o: Order): OrderInst {
    if i.shadow.None? || i.shadow.value.header.id != id then i
    else
      var sh := i.shadow.value;
      i.(shadow := Some(OrderShadow(sh.header, sh.received + 1, Place(sh.book, orderId, o))))
  }

  predicate Commits(i: OrderInst, id: nat, anchor: nat) {
    i.shadow.Some? &&
    var sh := i.shadow.value;
    sh.header.id == id && sh.header.anchor == anchor && sh.received == sh.header.total
  }

  function Commit(i: OrderInst): OrderInst
    requires i.shadow.Some?
  {
    var sh := i.shadow.value;
    i.(status := Ready, book := sh.book, lastMkt := sh.header.anchor, lastSeq := sh.header.last, shadow := None)
  }

  /** An end older than the shadow is ignored; any other commits it or drops it. */
  function EndGroup(i: OrderInst, id: nat, anchor: nat): OrderInst {
    if i.shadow.None? || id < i.shadow.value.header.id then i
    else if Commits(i, id, anchor) then Commit(i)
    else i.(shadow := None)
  }

  // ---- one shard ----

  function Get<K, V>(m: map<K, V>, k: K): Option<V> {
    if k in m then Some(m[k]) else None
  }

  function Set<K, V>(m: map<K, V>, k: K, v: Option<V>): map<K, V> {
    if v.Some? then m[k := v.value] else m - {k}
  }

  /** One instrument's part of a shard: its book and its buffered deltas. */
  datatype Share = Share(inst: Option<OrderInst>, buf: Option<seq<OrderDelta>>)
  {
    function Deltas(): seq<OrderDelta> {
      if buf.Some? then buf.value else []
    }
  }

  datatype OrderGroup = OrderGroup(inst: Key, id: nat)

  datatype OrderShard = OrderShard(
    insts: map<Key, OrderInst>,
    refdata: set<Key>,
    bufs: map<Key, seq<OrderDelta>>,
    ctx: map<Key, OrderHeader>,
    open: map<nat, OrderGroup>)
  {
    function InstFor(k: Key): OrderInst {
      if k in insts then insts[k] else NEW
    }

    function Buf(k: Key): seq<OrderDelta> {
      if k in bufs then bufs[k] else []
    }

    function ShareOf(k: Key): Share {
      Share(Get(insts, k), Get(bufs, k))
    }

    function With(k: Key, share: Share): OrderShard {
      this.(insts := Set(insts, k, share.inst), bufs := Set(bufs, k, share.buf))
    }
  }

  const NO_SHARD := OrderShard(map[], {}, map[], map[], map[])

  function InsertSorted(buf: seq<OrderDelta>, d: OrderDelta): seq<OrderDelta> {
    if buf == [] || buf[|buf| - 1].mseq <= d.mseq then buf + [d]
    else InsertSorted(buf[..|buf| - 1], d) + [buf[|buf| - 1]]
  }

  function Buffered(buf: seq<OrderDelta>, d: OrderDelta): seq<OrderDelta> {
    InsertSorted(if |buf| >= MAX_DELTAS then buf[1..] else buf, d)
  }

  function Later(buf: seq<OrderDelta>, anchor: nat): seq<OrderDelta> {
    if buf == [] then []
    else if buf[0].mseq > anchor then [buf[0]] + Later(buf[1..], anchor)
    else Later(buf[1..], anchor)
  }

  datatype OrderRecord =
    | OrderChange(ch: nat, inst: nat, resetCount: nat, delta: OrderDelta)
    | GroupBegin(ch: nat, inst: nat, resetCount: nat, header: OrderHeader)
    | GroupOrder(ch: nat, inst: nat, resetCount: nat, id: nat, orderId: nat, order: Order)
    | GroupEnd(ch: nat, inst: nat, resetCount: nat, id: nat, anchor: nat)
    | BookReset(ch: nat, inst: nat, resetCount: nat, anchor: nat)
    | Defined(ch: nat, inst: nat, resetCount: nat)
    | Channel(ch: nat, inst: nat, resetCount: nat)
  {
    function At(): Key { Key(ch, inst) }
  }

  function Changed(x: Share, d: OrderDelta): Share {
    if x.inst.None? || x.inst.value.status != Ready then x.(buf := Some(Buffered(x.Deltas(), d)))
    else
      var o := Deliver(x.inst.value, d);
      Share(Some(o.inst), if o.demoted then Some(Buffered(x.Deltas(), d)) else x.buf)
  }

  function Begun(x: Share, h: OrderHeader): Share {
    x.(inst := Some(BeginGroup(if x.inst.Some? then x.inst.value else NEW, h)))
  }

  function Ordered(x: Share, id: nat, orderId: nat, o: Order): Share {
    if x.inst.None? then x else x.(inst := Some(AddOrder(x.inst.value, id, orderId, o)))
  }

  function Ended(x: Share, id: nat, anchor: nat): Share {
    if x.inst.None? then x
    else if Commits(x.inst.value, id, anchor) then Share(Some(Replay(Commit(x.inst.value), x.Deltas()).inst), None)
    else x.(inst := Some(EndGroup(x.inst.value, id, anchor)))
  }

  function Cleared(x: Share, anchor: nat): Share {
    if x.inst.None? then x else Share(Some(NEW), Some(Later(x.Deltas(), anchor)))
  }

  /** The open pointer and the context name the group even when the instrument declines
      it. */
  function OpenGroup(s: OrderShard, k: Key, h: OrderHeader): OrderShard {
    s.(open := s.open[k.ch := OrderGroup(k, h.id)], ctx := s.ctx[k := h])
  }

  function HandleOrder(s: OrderShard, ch: nat, id: nat, orderId: nat, o: Order): OrderShard {
    if ch !in s.open || s.open[ch].id != id then s
    else s.With(s.open[ch].inst, Ordered(s.ShareOf(s.open[ch].inst), id, orderId, o))
  }

  /** An end closes the group it names, by instrument and id. */
  function CloseGroup(s: OrderShard, k: Key, id: nat): OrderShard {
    s.(open := if k.ch in s.open && s.open[k.ch] == OrderGroup(k, id) then s.open - {k.ch} else s.open,
       ctx := if k in s.ctx && s.ctx[k].id == id then s.ctx - {k} else s.ctx)
  }

  function HandleRecord(s: OrderShard, rec: OrderRecord): OrderShard {
    var k := rec.At();
    match rec
    case OrderChange(_, _, _, d) => s.With(k, Changed(s.ShareOf(k), d))
    case GroupBegin(_, _, _, h) => OpenGroup(s.With(k, Begun(s.ShareOf(k), h)), k, h)
    case GroupOrder(ch, _, _, id, orderId, o) => HandleOrder(s, ch, id, orderId, o)
    case GroupEnd(_, _, _, id, anchor) => CloseGroup(s.With(k, Ended(s.ShareOf(k), id, anchor)), k, id)
    case BookReset(_, _, _, anchor) => s.With(k, Cleared(s.ShareOf(k), anchor))
    case Defined(_, _, _) => s.(insts := s.insts[k := s.InstFor(k)], refdata := s.refdata + {k})
    case Channel(_, _, _) => s
  }

  function ChannelKeys(s: OrderShard, ch: nat): set<Key> {
    set k | k in s.insts.Keys + s.refdata + s.bufs.Keys + s.ctx.Keys && k.ch == ch
  }

  function WipeChannel(s: OrderShard, ch: nat): OrderShard {
    var ks := ChannelKeys(s, ch);
    OrderShard(s.insts - ks, s.refdata - ks, s.bufs - ks, s.ctx - ks, s.open - {ch})
  }

  function DropShadows(s: OrderShard): OrderShard {
    s.(insts := map k | k in s.insts :: s.insts[k].(shadow := None), ctx := map[], open := map[])
  }

  // ---- the coordinator and its shards ----

  datatype Route = Route(inst: nat, id: nat, shard: nat)

  /** The coordinator, and the shards once each has handled what it was sent. */
  datatype Bot = Bot(routes: map<nat, Route>, resetCount: map<nat, nat>, shards: seq<OrderShard>)
  {
    function ShardOf(inst: nat): nat
      requires shards != []
    {
      inst % |shards|
    }
  }

  function NewBot(n: nat): Bot {
    Bot(map[], map[], seq(n, i => NO_SHARD))
  }

  /** The shard a record goes to, if any. An order follows the open route, and one
      that disagrees with it goes nowhere. */
  function Target(x: Bot, rec: OrderRecord): Option<nat>
    requires x.shards != []
  {
    match rec
    case GroupOrder(ch, _, _, id, _, _) =>
      if ch in x.routes && x.routes[ch].id == id && x.routes[ch].shard < |x.shards| then Some(x.routes[ch].shard) else None
    case Channel(_, _, _) => None
    case _ => Some(x.ShardOf(rec.inst))
  }

  /** Only the open group's own end releases its route. */
  function RoutesAfter(x: Bot, rec: OrderRecord): map<nat, Route>
    requires x.shards != []
  {
    match rec
    case GroupBegin(ch, inst, _, h) => x.routes[ch := Route(inst, h.id, x.ShardOf(inst))]
    case GroupEnd(ch, inst, _, id, _) =>
      if ch in x.routes && x.routes[ch].inst == inst && x.routes[ch].id == id then x.routes - {ch} else x.routes
    case _ => x.routes
  }

  function Classified(x: Bot, rec: OrderRecord): Bot
    requires x.shards != []
  {
    var t := Target(x, rec);
    x.(routes := RoutesAfter(x, rec),
       resetCount := if rec.ch in x.resetCount then x.resetCount else x.resetCount[rec.ch := rec.resetCount],
       shards := if t.Some? then x.shards[t.value := HandleRecord(x.shards[t.value], rec)] else x.shards)
  }

  function Barred(x: Bot, rec: OrderRecord): Bot {
    x.(routes := x.routes - {rec.ch}, resetCount := x.resetCount[rec.ch := rec.resetCount],
       shards := seq(|x.shards|, i requires 0 <= i < |x.shards| => WipeChannel(x.shards[i], rec.ch)))
  }

  predicate MeetsBarrier(x: Bot, rec: OrderRecord) {
    rec.ch in x.resetCount && x.resetCount[rec.ch] != rec.resetCount
  }

  datatype Input = Incoming(rec: OrderRecord) | SocketDrop

  function Dispatch(x: Bot, input: Input): (y: Bot)
    requires x.shards != []
    ensures |y.shards| == |x.shards|
  {
    match input
    case Incoming(rec) => Classified(if MeetsBarrier(x, rec) then Barred(x, rec) else x, rec)
    case SocketDrop =>
      x.(routes := map[], shards := seq(|x.shards|, i requires 0 <= i < |x.shards| => DropShadows(x.shards[i])))
  }

  function DispatchAll(x: Bot, inputs: seq<Input>): (y: Bot)
    requires x.shards != []
    ensures |y.shards| == |x.shards|
    decreases |inputs|
  {
    if inputs == [] then x else DispatchAll(Dispatch(x, inputs[0]), inputs[1..])
  }
}
