/** The Market-by-Order coordinator's memory and what it does to its shards, told from the
    records and socket drops it has met. */
module OrderRoutes {
  import opened Wrappers
  import opened O = OrderSpec
  import B = OrderBooks

  lemma {:induction false} DispatchBoth(x: Bot, a: seq<Input>, b: seq<Input>)
    requires x.shards != []
    ensures DispatchAll(x, a + b) == DispatchAll(DispatchAll(x, a), b)
    decreases |a|
  {
    if a == [] {
      assert a + b == b;
    } else {
      assert (a + b)[1..] == a[1..] + b;
      DispatchBoth(Dispatch(x, a[0]), a[1..], b);
    }
  }

  lemma OneMore(x: Bot, inputs: seq<Input>, n: nat)
    requires x.shards != [] && n < |inputs|
    ensures DispatchAll(x, inputs[..n + 1]) == Dispatch(DispatchAll(x, inputs[..n]), inputs[n])
  {
    assert inputs[..n + 1] == inputs[..n] + [inputs[n]] && [inputs[n]][1..] == [];
    DispatchBoth(x, inputs[..n], [inputs[n]]);
  }

  // ---- Reset Counts ----

  predicate On(input: Input, ch: nat) {
    input.Incoming? && input.rec.ch == ch
  }

  /** Input `i` is the last of the channel before `n`. */
  predicate LastOf(inputs: seq<Input>, ch: nat, i: nat, n: nat) {
    i < n <= |inputs| && On(inputs[i], ch) && forall j :: i < j < n ==> !On(inputs[j], ch)
  }

  /** Record `j` brings its channel a Reset Count other than the last one there. */
  ghost predicate Changes(inputs: seq<Input>, j: nat) {
    && j < |inputs| && inputs[j].Incoming?
    && exists i: nat :: LastOf(inputs, inputs[j].rec.ch, i, j) && inputs[i].rec.resetCount != inputs[j].rec.resetCount
  }

  lemma CountStep(x: Bot, input: Input, ch: nat)
    requires x.shards != []
    ensures Get(Dispatch(x, input).resetCount, ch) ==
            if On(input, ch) then Some(input.rec.resetCount) else Get(x.resetCount, ch)
  {
  }

  /** `c` is the Reset Count of the channel's last record before `n`. */
  ghost predicate TellsCount(inputs: seq<Input>, ch: nat, n: nat, c: Option<nat>) {
    && (c.Some? <==> exists i: nat :: LastOf(inputs, ch, i, n))
    && (forall i: nat :: LastOf(inputs, ch, i, n) ==> c == Some(inputs[i].rec.resetCount))
  }

  lemma LastMore(inputs: seq<Input>, ch: nat, i: nat, n: nat)
    requires n < |inputs|
    ensures i < n ==> (LastOf(inputs, ch, i, n + 1) <==> LastOf(inputs, ch, i, n) && !On(inputs[n], ch))
    ensures LastOf(inputs, ch, n, n + 1) <==> On(inputs[n], ch)
  {
  }

  lemma CountMore(inputs: seq<Input>, ch: nat, n: nat, c: Option<nat>)
    requires n < |inputs| && TellsCount(inputs, ch, n, c)
    ensures TellsCount(inputs, ch, n + 1, if On(inputs[n], ch) then Some(inputs[n].rec.resetCount) else c)
  {
    LastMore(inputs, ch, n, n);
    var next := n + 1;
    forall i: nat | LastOf(inputs, ch, i, next) ensures if On(inputs[n], ch) then i == n else LastOf(inputs, ch, i, n) {
      LastMore(inputs, ch, i, n);
    }
    if i: nat :| LastOf(inputs, ch, i, n) {
      LastMore(inputs, ch, i, n);
    }
  }

  lemma {:induction false} CountIsTheLast(x: Bot, inputs: seq<Input>, ch: nat, n: nat)
    requires x.shards != [] && x.resetCount == map[] && n <= |inputs|
    ensures TellsCount(inputs, ch, n, Get(DispatchAll(x, inputs[..n]).resetCount, ch))
  {
    if n == 0 {
      assert inputs[..0] == [];
    } else {
      var y := DispatchAll(x, inputs[..n - 1]);
      CountIsTheLast(x, inputs, ch, n - 1);
      OneMore(x, inputs, n - 1);
      CountStep(y, inputs[n - 1], ch);
      CountMore(inputs, ch, n - 1, Get(y.resetCount, ch));
    }
  }

  lemma BarrierExactly(x: Bot, inputs: seq<Input>, n: nat)
    requires x.shards != [] && x.resetCount == map[] && n < |inputs| && inputs[n].Incoming?
    ensures MeetsBarrier(DispatchAll(x, inputs[..n]), inputs[n].rec) <==> Changes(inputs, n)
  {
    var ch, y := inputs[n].rec.ch, DispatchAll(x, inputs[..n]);
    CountIsTheLast(x, inputs, ch, n);
    assert MeetsBarrier(y, inputs[n].rec) <==>
           Get(y.resetCount, ch).Some? && Get(y.resetCount, ch).value != inputs[n].rec.resetCount;
  }

  // ---- routes ----

  /** The input closes the route of a group: a socket drop, a new Reset Count or another
      begin on its channel, or its own end. */
  ghost predicate Closes(inputs: seq<Input>, i: nat, ch: nat, r: Route) {
    && i < |inputs|
    && (|| inputs[i].SocketDrop?
        || (&& On(inputs[i], ch)
            && (|| Changes(inputs, i) || inputs[i].rec.GroupBegin?
                || (inputs[i].rec.GroupEnd? && inputs[i].rec.inst == r.inst && inputs[i].rec.id == r.id))))
  }

  predicate Begins(input: Input, ch: nat) {
    On(input, ch) && input.rec.GroupBegin?
  }

  function RouteOf(rec: OrderRecord, shards: nat): Route
    requires rec.GroupBegin? && shards > 0
  {
    Route(rec.inst, rec.header.id, rec.inst % shards)
  }

  ghost predicate Routed(inputs: seq<Input>, j: nat, n: nat, ch: nat, shards: nat)
    requires shards > 0
  {
    && j < n <= |inputs| && Begins(inputs[j], ch)
    && forall i: nat :: j < i < n ==> !Closes(inputs, i, ch, RouteOf(inputs[j].rec, shards))
  }

  lemma RoutedMore(inputs: seq<Input>, j: nat, n: nat, ch: nat, shards: nat)
    requires n < |inputs| && shards > 0
    ensures j < n ==>
              (Routed(inputs, j, n + 1, ch, shards) <==>
               Routed(inputs, j, n, ch, shards) && !Closes(inputs, n, ch, RouteOf(inputs[j].rec, shards)))
    ensures Routed(inputs, n, n + 1, ch, shards) <==> Begins(inputs[n], ch)
  {
  }

  lemma RouteStep(x: Bot, inputs: seq<Input>, n: nat, ch: nat)
    requires x.shards != [] && x.resetCount == map[] && n < |inputs|
    ensures var y, z := DispatchAll(x, inputs[..n]), DispatchAll(x, inputs[..n + 1]);
            var before := Get(y.routes, ch);
            Get(z.routes, ch) ==
            if Begins(inputs[n], ch) then Some(RouteOf(inputs[n].rec, |x.shards|))
            else if before.Some? && Closes(inputs, n, ch, before.value) then None else before
  {
    OneMore(x, inputs, n);
    var y := DispatchAll(x, inputs[..n]);
    if inputs[n].Incoming? {
      BarrierExactly(x, inputs, n);
      RecordRoutes(y, inputs[n].rec, ch);
    }
  }

  lemma RecordRoutes(y: Bot, rec: OrderRecord, ch: nat)
    requires y.shards != []
    ensures var before := Get(y.routes, ch);
            Get(Dispatch(y, Incoming(rec)).routes, ch) ==
            if rec.ch != ch then before
            else if rec.GroupBegin? then Some(RouteOf(rec, |y.shards|))
            else if MeetsBarrier(y, rec) then None
            else if rec.GroupEnd? && before.Some? && before.value.inst == rec.inst && before.value.id == rec.id then None
            else before
  {
  }

  /** `r` is the route open before `n`, as the inputs tell. */
  ghost predicate TellsRoute(inputs: seq<Input>, n: nat, ch: nat, shards: nat, r: Option<Route>)
    requires shards > 0
  {
    && (r.Some? <==> exists j: nat :: Routed(inputs, j, n, ch, shards))
    && (forall j: nat :: Routed(inputs, j, n, ch, shards) ==> r == Some(RouteOf(inputs[j].rec, shards)))
  }

  lemma OnlyTheNewest(inputs: seq<Input>, n: nat, next: nat, ch: nat, shards: nat)
    requires n < |inputs| && next == n + 1 && shards > 0 && Begins(inputs[n], ch)
    ensures forall j: nat :: Routed(inputs, j, next, ch, shards) ==> j == n
  {
    forall j: nat | Routed(inputs, j, next, ch, shards) ensures j == n {
      RoutedMore(inputs, j, n, ch, shards);
    }
  }

  lemma StillRouted(inputs: seq<Input>, n: nat, ch: nat, shards: nat, before: Option<Route>)
    requires n < |inputs| && shards > 0 && TellsRoute(inputs, n, ch, shards, before) && !Begins(inputs[n], ch)
    ensures TellsRoute(inputs, n + 1, ch, shards,
              if before.Some? && Closes(inputs, n, ch, before.value) then None else before)
  {
    forall j: nat | Routed(inputs, j, n + 1, ch, shards)
      ensures before == Some(RouteOf(inputs[j].rec, shards)) && !Closes(inputs, n, ch, before.value)
    {
      RoutedMore(inputs, j, n, ch, shards);
      RoutedMore(inputs, n, n, ch, shards);
    }
    if before.Some? && !Closes(inputs, n, ch, before.value) {
      var j: nat :| Routed(inputs, j, n, ch, shards);
      RoutedMore(inputs, j, n, ch, shards);
    }
  }

  /** Over any inputs: a channel's orders have a route exactly since a begin that no socket
      drop, new Reset Count, later begin or own end closed, and it is that group's, to the
      shard of its instrument. */
  lemma {:induction false} RouteExactly(x: Bot, inputs: seq<Input>, n: nat, ch: nat)
    requires x.shards != [] && x.resetCount == map[] && x.routes == map[] && n <= |inputs|
    ensures TellsRoute(inputs, n, ch, |x.shards|, Get(DispatchAll(x, inputs[..n]).routes, ch))
  {
    if n == 0 {
      assert inputs[..0] == [];
    } else {
      var before := Get(DispatchAll(x, inputs[..n - 1]).routes, ch);
      RouteExactly(x, inputs, n - 1, ch);
      RouteStep(x, inputs, n - 1, ch);
      if Begins(inputs[n - 1], ch) {
        RoutedMore(inputs, n - 1, n - 1, ch, |x.shards|);
        OnlyTheNewest(inputs, n - 1, n, ch, |x.shards|);
      } else {
        StillRouted(inputs, n - 1, ch, |x.shards|, before);
      }
    }
  }

  /** An order that meets no barrier goes to a shard exactly when the route open on its
      channel is of its snapshot, and to that route's. */
  lemma OrderSentExactly(x: Bot, inputs: seq<Input>, n: nat, idx: nat)
    requires x.shards != [] && x.resetCount == map[] && x.routes == map[] && n < |inputs|
    requires inputs[n].Incoming? && inputs[n].rec.GroupOrder? && !Changes(inputs, n)
    ensures Target(DispatchAll(x, inputs[..n]), inputs[n].rec) == Some(idx) <==>
            exists j: nat :: Routed(inputs, j, n, inputs[n].rec.ch, |x.shards|) &&
              inputs[j].rec.header.id == inputs[n].rec.id && idx == inputs[j].rec.inst % |x.shards|
  {
    RouteExactly(x, inputs, n, inputs[n].rec.ch);
  }

  // ---- what reaches the shards ----

  /** A new Reset Count wipes its channel on every shard before the record that brings it;
      a record that brings none moves one shard at most. */
  lemma BarrierReachesEveryShard(x: Bot, rec: OrderRecord, i: nat)
    requires i < |x.shards|
    ensures var y := Dispatch(x, Incoming(rec));
            var s := if MeetsBarrier(x, rec) then B.Step(x.shards[i], B.Wipe(rec.ch)) else x.shards[i];
            y.shards[i] == s || y.shards[i] == B.Step(s, B.Rec(rec))
    ensures !rec.GroupOrder? && !rec.Channel? && i == rec.inst % |x.shards| ==>
              var s := if MeetsBarrier(x, rec) then B.Step(x.shards[i], B.Wipe(rec.ch)) else x.shards[i];
              Dispatch(x, Incoming(rec)).shards[i] == B.Step(s, B.Rec(rec))
  {
  }

  /** A socket drop takes every shadow, context and open group on every shard, and nothing
      that serves. */
  lemma DropReachesEveryShard(x: Bot, i: nat, k: B.Key)
    requires i < |x.shards|
    ensures var s, t := x.shards[i], Dispatch(x, SocketDrop).shards[i];
            && t.open == map[] && t.ctx == map[] && t.bufs == s.bufs && t.refdata == s.refdata
            && (k in t.insts <==> k in s.insts)
            && (k in s.insts ==> t.insts[k] == s.insts[k].(shadow := None))
    ensures Dispatch(x, SocketDrop).routes == map[] && Dispatch(x, SocketDrop).resetCount == x.resetCount
  {
  }
}
