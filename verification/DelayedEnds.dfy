/** Snapshot ends delayed behind a later begin, across the Market-by-Order coordinator
    and its shards: they never touch the group that is live. */
module DelayedEnds {
  import opened Wrappers
  import opened ShardSpec
  import opened OrderSpec
  import OrderBooks

  /** Every route leads to its instrument's shard. */
  predicate RoutesRight(x: Bot) {
    x.shards != [] && forall ch :: ch in x.routes ==> x.routes[ch].shard == x.ShardOf(x.routes[ch].inst)
  }

  /** An open pointer names an instrument of its channel. */
  predicate PointersRight(s: OrderShard) {
    forall ch :: ch in s.open ==> s.open[ch].inst.ch == ch
  }

  lemma PointersStayRight(s: OrderShard, rec: OrderRecord)
    requires PointersRight(s)
    ensures PointersRight(HandleRecord(s, rec))
  {
  }

  /** All there is of `k` in a shard, and its channel's open pointer, is the same. */
  predicate Alike(a: OrderShard, b: OrderShard, k: Key) {
    && a.ShareOf(k) == b.ShareOf(k) && Get(a.ctx, k) == Get(b.ctx, k)
    && (k in a.refdata <==> k in b.refdata) && Get(a.open, k.ch) == Get(b.open, k.ch)
  }

  ghost predicate Agree(x: Bot, y: Bot, k: Key) {
    && RoutesRight(x) && RoutesRight(y) && |x.shards| == |y.shards|
    && Get(x.routes, k.ch) == Get(y.routes, k.ch) && Get(x.resetCount, k.ch) == Get(y.resetCount, k.ch)
    && Alike(x.shards[x.ShardOf(k.id)], y.shards[y.ShardOf(k.id)], k)
    && PointersRight(x.shards[x.ShardOf(k.id)]) && PointersRight(y.shards[y.ShardOf(k.id)])
  }

  // ---- the same input on both sides ----

  lemma AlikeTransitive(a: OrderShard, b: OrderShard, c: OrderShard, k: Key)
    requires Alike(a, b, k) && (Alike(b, c, k) || Alike(c, b, k))
    ensures Alike(a, c, k)
  {
  }

  lemma WithOther(a: OrderShard, j: Key, x: Share, k: Key)
    requires j != k
    ensures Alike(a.With(j, x), a, k)
  {
  }

  lemma WithOwn(a: OrderShard, b: OrderShard, k: Key, x: Share)
    requires Alike(a, b, k)
    ensures Alike(a.With(k, x), b.With(k, x), k) && a.With(k, x).ShareOf(k) == x
  {
  }

  lemma AlikeClose(a: OrderShard, b: OrderShard, k: Key, j: Key, id: nat)
    requires Alike(a, b, k) && j.ch == k.ch
    ensures Alike(CloseGroup(a, j, id), CloseGroup(b, j, id), k)
  {
  }

  /** The same share written at `j` on both sides, if `j` is `k`; any, if not. */
  lemma WithBoth(a: OrderShard, b: OrderShard, k: Key, j: Key, x: Share, y: Share)
    requires Alike(a, b, k) && (j == k ==> x == y)
    ensures Alike(a.With(j, x), b.With(j, y), k)
  {
    if j == k {
      WithOwn(a, b, k, x);
    } else {
      WithOther(a, j, x, k);
      WithOther(b, j, y, k);
    }
  }

  lemma AlikeRecord(a: OrderShard, b: OrderShard, k: Key, rec: OrderRecord)
    requires Alike(a, b, k) && rec.ch == k.ch
    ensures Alike(HandleRecord(a, rec), HandleRecord(b, rec), k)
  {
    var j := rec.At();
    match rec
    case OrderChange(_, _, _, d) => WithBoth(a, b, k, j, Changed(a.ShareOf(j), d), Changed(b.ShareOf(j), d));
    case GroupBegin(_, _, _, h) => WithBoth(a, b, k, j, Begun(a.ShareOf(j), h), Begun(b.ShareOf(j), h));
    case GroupOrder(ch, _, _, id, orderId, o) =>
      if ch in a.open && a.open[ch].id == id {
        var g := a.open[ch].inst;
        WithBoth(a, b, k, g, Ordered(a.ShareOf(g), id, orderId, o), Ordered(b.ShareOf(g), id, orderId, o));
      }
    case GroupEnd(_, _, _, id, anchor) =>
      var x, y := Ended(a.ShareOf(j), id, anchor), Ended(b.ShareOf(j), id, anchor);
      WithBoth(a, b, k, j, x, y);
      AlikeClose(a.With(j, x), b.With(j, y), k, j, id);
    case BookReset(_, _, _, anchor) => WithBoth(a, b, k, j, Cleared(a.ShareOf(j), anchor), Cleared(b.ShareOf(j), anchor));
    case _ =>
  }

  lemma AlikeWipe(a: OrderShard, b: OrderShard, k: Key, ch: nat)
    requires Alike(a, b, k)
    ensures Alike(WipeChannel(a, ch), WipeChannel(b, ch), k)
  {
  }

  lemma AlikeDrop(a: OrderShard, b: OrderShard, k: Key)
    requires Alike(a, b, k)
    ensures Alike(DropShadows(a), DropShadows(b), k)
  {
  }

  /** A record of another channel is nothing to `k`. */
  lemma ElsewhereAlike(a: OrderShard, k: Key, rec: OrderRecord)
    requires PointersRight(a) && rec.ch != k.ch
    ensures Alike(HandleRecord(a, rec), a, k)
  {
    var j := rec.At();
    match rec
    case OrderChange(_, _, _, d) => WithOther(a, j, Changed(a.ShareOf(j), d), k);
    case GroupBegin(_, _, _, h) => WithOther(a, j, Begun(a.ShareOf(j), h), k);
    case GroupOrder(ch, _, _, id, orderId, o) =>
      if ch in a.open && a.open[ch].id == id {
        WithOther(a, a.open[ch].inst, Ordered(a.ShareOf(a.open[ch].inst), id, orderId, o), k);
      }
    case GroupEnd(_, _, _, id, anchor) => WithOther(a, j, Ended(a.ShareOf(j), id, anchor), k);
    case BookReset(_, _, _, anchor) => WithOther(a, j, Cleared(a.ShareOf(j), anchor), k);
    case _ =>
  }

  /** The shard of `k` after a record. */
  function Handled(x: Bot, k: Key, rec: OrderRecord): OrderShard
    requires x.shards != []
  {
    var n := x.ShardOf(k.id);
    if Target(x, rec) == Some(n) then HandleRecord(x.shards[n], rec) else x.shards[n]
  }

  lemma ClassifiedShard(x: Bot, k: Key, rec: OrderRecord)
    requires x.shards != []
    ensures Classified(x, rec).shards[x.ShardOf(k.id)] == Handled(x, k, rec)
  {
  }

  lemma HandledAlike(x: Bot, y: Bot, k: Key, rec: OrderRecord)
    requires Agree(x, y, k)
    ensures Alike(Handled(x, k, rec), Handled(y, k, rec), k)
  {
    var n := x.ShardOf(k.id);
    var a, b := x.shards[n], y.shards[n];
    if rec.ch == k.ch {
      assert Target(x, rec) == Target(y, rec);
      AlikeRecord(a, b, k, rec);
    } else {
      ElsewhereAlike(a, k, rec);
      ElsewhereAlike(b, k, rec);
      AlikeTransitive(HandleRecord(a, rec), a, b, k);
      AlikeTransitive(HandleRecord(a, rec), b, HandleRecord(b, rec), k);
    }
  }

  lemma RoutesAgree(x: Bot, y: Bot, k: Key, rec: OrderRecord)
    requires RoutesRight(x) && RoutesRight(y) && |x.shards| == |y.shards| && Get(x.routes, k.ch) == Get(y.routes, k.ch)
    ensures Get(RoutesAfter(x, rec), k.ch) == Get(RoutesAfter(y, rec), k.ch)
    ensures RoutesRight(Classified(x, rec)) && RoutesRight(Classified(y, rec))
  {
  }

  lemma ShardsAgree(x: Bot, y: Bot, k: Key, rec: OrderRecord)
    requires Agree(x, y, k)
    ensures var n := x.ShardOf(k.id);
            var a, b := Classified(x, rec).shards[n], Classified(y, rec).shards[n];
            Alike(a, b, k) && PointersRight(a) && PointersRight(b)
  {
    HandledAlike(x, y, k, rec);
    PointersStayRight(x.shards[x.ShardOf(k.id)], rec);
    PointersStayRight(y.shards[y.ShardOf(k.id)], rec);
    ClassifiedShard(x, k, rec);
    ClassifiedShard(y, k, rec);
  }

  lemma AgreeClassified(x: Bot, y: Bot, k: Key, rec: OrderRecord)
    requires Agree(x, y, k)
    ensures Agree(Classified(x, rec), Classified(y, rec), k)
  {
    ShardsAgree(x, y, k, rec);
    RoutesAgree(x, y, k, rec);
    CountsAgree(x, y, k, rec);
    assert x.ShardOf(k.id) == Classified(x, rec).ShardOf(k.id) && y.ShardOf(k.id) == Classified(y, rec).ShardOf(k.id);
  }

  lemma CountsAgree(x: Bot, y: Bot, k: Key, rec: OrderRecord)
    requires x.shards != [] && y.shards != [] && Get(x.resetCount, k.ch) == Get(y.resetCount, k.ch)
    ensures Get(Classified(x, rec).resetCount, k.ch) == Get(Classified(y, rec).resetCount, k.ch)
    ensures |Classified(x, rec).shards| == |x.shards| && |Classified(y, rec).shards| == |y.shards|
    ensures Classified(x, rec).routes == RoutesAfter(x, rec) && Classified(y, rec).routes == RoutesAfter(y, rec)
  {
  }

  lemma AgreeBarred(x: Bot, y: Bot, k: Key, rec: OrderRecord)
    requires Agree(x, y, k)
    ensures Agree(Barred(x, rec), Barred(y, rec), k)
  {
    AlikeWipe(x.shards[x.ShardOf(k.id)], y.shards[y.ShardOf(k.id)], k, rec.ch);
  }

  lemma WipeElsewhere(x: Bot, k: Key, rec: OrderRecord)
    requires RoutesRight(x) && PointersRight(x.shards[x.ShardOf(k.id)]) && rec.ch != k.ch
    ensures Agree(Barred(x, rec), x, k)
  {
  }

  lemma AgreeTransitive(x: Bot, y: Bot, z: Bot, k: Key)
    requires Agree(x, y, k) && Agree(y, z, k)
    ensures Agree(x, z, k)
  {
  }

  lemma AgreeSymmetric(x: Bot, y: Bot, k: Key)
    requires Agree(x, y, k)
    ensures Agree(y, x, k)
  {
  }

  lemma AgreeDispatch(x: Bot, y: Bot, k: Key, input: Input)
    requires Agree(x, y, k)
    ensures Agree(Dispatch(x, input), Dispatch(y, input), k)
  {
    match input
    case SocketDrop =>
      AlikeDrop(x.shards[x.ShardOf(k.id)], y.shards[y.ShardOf(k.id)], k);
    case Incoming(rec) =>
      var x1 := if MeetsBarrier(x, rec) then Barred(x, rec) else x;
      var y1 := if MeetsBarrier(y, rec) then Barred(y, rec) else y;
      BarrierAgrees(x, y, k, rec);
      AgreeClassified(x1, y1, k, rec);
  }

  lemma BarrierAgrees(x: Bot, y: Bot, k: Key, rec: OrderRecord)
    requires Agree(x, y, k)
    ensures Agree(if MeetsBarrier(x, rec) then Barred(x, rec) else x, if MeetsBarrier(y, rec) then Barred(y, rec) else y, k)
  {
    if rec.ch == k.ch {
      if MeetsBarrier(x, rec) {
        AgreeBarred(x, y, k, rec);
      }
    } else {
      WipeElsewhere(x, k, rec);
      WipeElsewhere(y, k, rec);
      AgreeSymmetric(Barred(y, rec), y, k);
      if MeetsBarrier(x, rec) {
        AgreeTransitive(Barred(x, rec), x, y, k);
        AgreeTransitive(Barred(x, rec), y, Barred(y, rec), k);
      } else {
        AgreeTransitive(x, y, Barred(y, rec), k);
      }
    }
  }

  // ---- an end on one side only ----

  /** The group of `k` under `id` is the one live on its channel: the coordinator routes
      to it, its shard's pointer names it, and a shadow or context `k` has is its own. */
  predicate Live(x: Bot, k: Key, id: nat)
    requires x.shards != []
  {
    var s := x.shards[x.ShardOf(k.id)];
    && k.ch in x.routes && x.routes[k.ch].inst == k.id && x.routes[k.ch].id == id
    && k.ch in s.open && s.open[k.ch] == OrderGroup(k, id)
    && k in s.insts && (s.insts[k].shadow.Some? ==> s.insts[k].shadow.value.header.id == id)
    && k in s.ctx && s.ctx[k].id == id
  }

  /** An end of this era of the channel that is late: another instrument's, or an older
      group's of `k`. */
  predicate Late(x: Bot, k: Key, id: nat, rec: OrderRecord) {
    rec.GroupEnd? && rec.ch == k.ch && !MeetsBarrier(x, rec) && (rec.inst != k.id || rec.id < id)
  }

  predicate BeginsIt(rec: OrderRecord, k: Key, id: nat) {
    rec.GroupBegin? && rec.At() == k && rec.header.id == id
  }

  /** A begin makes its group the live one, whether or not the instrument takes it. */
  lemma BeginIsLive(x: Bot, k: Key, id: nat, rec: OrderRecord)
    requires RoutesRight(x) && BeginsIt(rec, k, id)
    requires x.shards[x.ShardOf(k.id)].InstFor(k).status.Ready? ==> x.shards[x.ShardOf(k.id)].InstFor(k).shadow.None?
    requires !MeetsBarrier(x, rec)
    ensures Live(Dispatch(x, Incoming(rec)), k, id)
  {
  }

  lemma LateClassified(x: Bot, k: Key, id: nat, rec: OrderRecord)
    requires RoutesRight(x) && Live(x, k, id) && Late(x, k, id, rec) && rec.ch in x.resetCount
    requires PointersRight(x.shards[x.ShardOf(k.id)])
    ensures Agree(x, Classified(x, rec), k)
  {
    var s := x.shards[x.ShardOf(k.id)];
    ClassifiedShard(x, k, rec);
    RoutesAgree(x, x, k, rec);
    PointersStayRight(s, rec);
    var x1 := Ended(s.ShareOf(rec.At()), rec.id, rec.anchor);
    if rec.inst != k.id {
      WithOther(s, rec.At(), x1, k);
    } else {
      OwnLateEnd(s, k, rec.id, rec.anchor);
    }
  }

  lemma OwnLateEnd(s: OrderShard, k: Key, id: nat, anchor: nat)
    requires k in s.insts && (s.insts[k].shadow.Some? ==> id < s.insts[k].shadow.value.header.id)
    requires k in s.ctx && s.ctx[k].id != id && k.ch in s.open && s.open[k.ch].id != id
    ensures CloseGroup(s.With(k, Ended(s.ShareOf(k), id, anchor)), k, id) == s
  {
    assert Ended(s.ShareOf(k), id, anchor) == s.ShareOf(k);
  }

  /** For a live group: an end of its channel leaves route, pointer, shadow and context
      as they were exactly when it is late, or ahead of a group that has no shadow to
      lose. */
  lemma OnlyLateEndsPass(x: Bot, k: Key, id: nat, rec: OrderRecord)
    requires RoutesRight(x) && Live(x, k, id) && rec.GroupEnd? && rec.ch == k.ch && !MeetsBarrier(x, rec)
    ensures var y := Dispatch(x, Incoming(rec));
            var s, t := x.shards[x.ShardOf(k.id)], y.shards[x.ShardOf(k.id)];
            && (Get(x.routes, k.ch) == Get(y.routes, k.ch) && Get(s.open, k.ch) == Get(t.open, k.ch) &&
                  Get(s.ctx, k) == Get(t.ctx, k) && k in t.insts && t.insts[k].shadow == s.insts[k].shadow
                <==> rec.inst != k.id || rec.id < id || (rec.id > id && s.insts[k].shadow.None?))
  {
  }

  // ---- whole runs ----

  /** A run with some ends marked as inserted. */
  datatype Event = Both(input: Input) | Inserted(rec: OrderRecord)

  function Without(x: Bot, events: seq<Event>): (y: Bot)
    requires x.shards != []
    ensures |y.shards| == |x.shards|
    decreases |events|
  {
    if events == [] then x
    else if events[0].Both? then Without(Dispatch(x, events[0].input), events[1..])
    else Without(x, events[1..])
  }

  function With(x: Bot, events: seq<Event>): (y: Bot)
    requires x.shards != []
    ensures |y.shards| == |x.shards|
    decreases |events|
  {
    if events == [] then x
    else With(Dispatch(x, if events[0].Both? then events[0].input else Incoming(events[0].rec)), events[1..])
  }

  /** Each inserted end arrives late, while the group of `k` under `id` is live. */
  predicate AllLate(x: Bot, events: seq<Event>, k: Key, id: nat)
    requires x.shards != []
    decreases |events|
  {
    if events == [] then true
    else if events[0].Both? then AllLate(Dispatch(x, events[0].input), events[1..], k, id)
    else
      var rec := events[0].rec;
      Live(x, k, id) && Late(x, k, id, rec) && rec.ch in x.resetCount && AllLate(Dispatch(x, Incoming(rec)), events[1..], k, id)
  }

  /** Insert any number of late ends anywhere in a run while a group is live: the live
      group's route, open pointer, shadow and context, and the instrument, its book and
      its buffer, are at the end what they are without them. */
  lemma {:induction false} LateEndsChangeNothing(x: Bot, y: Bot, events: seq<Event>, k: Key, id: nat)
    requires Agree(x, y, k) && AllLate(y, events, k, id)
    ensures Agree(Without(x, events), With(y, events), k)
    decreases |events|
  {
    if events != [] {
      if events[0].Both? {
        var input := events[0].input;
        AgreeDispatch(x, y, k, input);
        LateEndsChangeNothing(Dispatch(x, input), Dispatch(y, input), events[1..], k, id);
      } else {
        var rec := events[0].rec;
        var z := Dispatch(y, Incoming(rec));
        LateClassified(y, k, id, rec);
        AgreeTransitive(x, y, z, k);
        LateEndsChangeNothing(x, z, events[1..], k, id);
      }
    }
  }

  // ---- from the start ----

  /** What every dispatch keeps: routes and pointers are right, and no ready instrument
      holds a shadow. */
  predicate Sane(x: Bot) {
    RoutesRight(x) && forall n :: 0 <= n < |x.shards| ==> SaneShard(x.shards[n])
  }

  predicate SaneShard(s: OrderShard) {
    PointersRight(s) && forall k :: k in s.insts ==> SaneInst(s.insts[k])
  }

  predicate SaneInst(i: OrderInst) {
    i.status.Ready? ==> i.shadow.None?
  }

  lemma SaneRecord(s: OrderShard, rec: OrderRecord)
    requires SaneShard(s)
    ensures SaneShard(HandleRecord(s, rec))
  {
    PointersStayRight(s, rec);
    var k := rec.At();
    match rec
    case OrderChange(_, _, _, d) =>
      if k in s.insts {
        OrderBooks.DeliverShadow(s.insts[k], d);
      }
    case GroupEnd(_, _, _, id, anchor) =>
      if k in s.insts && Commits(s.insts[k], id, anchor) {
        OrderBooks.ReplayShadow(Commit(s.insts[k]), s.ShareOf(k).Deltas());
      }
    case _ =>
  }

  lemma SaneClassified(x: Bot, rec: OrderRecord)
    requires Sane(x)
    ensures Sane(Classified(x, rec))
  {
    RoutesAgree(x, x, Key(0, 0), rec);
    var t := Target(x, rec);
    if t.Some? {
      SaneRecord(x.shards[t.value], rec);
    }
  }

  lemma SaneDispatch(x: Bot, input: Input)
    requires Sane(x)
    ensures Sane(Dispatch(x, input))
  {
    if input.Incoming? {
      SaneClassified(if MeetsBarrier(x, input.rec) then Barred(x, input.rec) else x, input.rec);
    }
  }

  lemma {:induction false} SaneAlways(x: Bot, inputs: seq<Input>)
    requires Sane(x)
    ensures Sane(DispatchAll(x, inputs))
    decreases |inputs|
  {
    if inputs != [] {
      SaneDispatch(x, inputs[0]);
      SaneAlways(Dispatch(x, inputs[0]), inputs[1..]);
    }
  }

  /** From the start of a bot with any number of shards, after anything at all: a begin
      makes its group live, and no late ends inserted while it is live change the route,
      pointer, shadow, context, book or buffer that anything after leaves. */
  lemma LiveGroupIsUntouched(n: nat, before: seq<Input>, rec: OrderRecord, events: seq<Event>, k: Key, id: nat)
    requires n > 0 && BeginsIt(rec, k, id)
    ensures var x := Dispatch(DispatchAll(NewBot(n), before), Incoming(rec));
            && Live(x, k, id)
            && (AllLate(x, events, k, id) ==> Agree(Without(x, events), With(x, events), k))
  {
    var w := DispatchAll(NewBot(n), before);
    SaneAlways(NewBot(n), before);
    BeginMakesLive(w, k, id, rec);
    var x := Dispatch(w, Incoming(rec));
    SaneDispatch(w, Incoming(rec));
    if AllLate(x, events, k, id) {
      LateEndsChangeNothing(x, x, events, k, id);
    }
  }

  lemma BeginMakesLive(w: Bot, k: Key, id: nat, rec: OrderRecord)
    requires Sane(w) && BeginsIt(rec, k, id)
    ensures Live(Dispatch(w, Incoming(rec)), k, id)
  {
    var x := if MeetsBarrier(w, rec) then Barred(w, rec) else w;
    assert Sane(x) && x.shards != [];
    assert !MeetsBarrier(x, rec);
    BeginIsLive(x, k, id, rec);
    assert Dispatch(w, Incoming(rec)) == Classified(x, rec) == Dispatch(x, Incoming(rec));
  }
}
