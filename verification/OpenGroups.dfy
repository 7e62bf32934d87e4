/** While which messages an instrument has a snapshot under way, for both bots. */
module OpenGroups {
  import opened Wrappers
  import opened InstrumentSpec
  import opened ShardSpec
  import opened ShardInvariant
  import opened CrossedIndex
  import opened Service
  import O = OrderSpec
  import B = OrderBooks

  // ---- the Market-by-Price bot ----

  /** A begin of its own that the instrument does not decline. */
  predicate Takes(s: Shard, m: Message, k: Key) {
    m.Rec? && m.rec.At() == k && m.rec.body.SnapshotBegin? &&
    var i, h := s.InstFor(k), m.rec.body.header;
    && (i.requiredAnchor.Some? ==> h.anchor >= i.requiredAnchor.value)
    && (i.requiredSeq.Some? ==> h.last >= i.requiredSeq.value)
    && (i.status == Ready ==> h.last > i.lastSeq)
  }

  /** Any end of its own, a socket drop, a reset, a wipe or a prune of it. */
  predicate Closes(s: Shard, m: Message, k: Key) {
    || m.ClearShadows?
    || Restarts(s, m, k)
    || (m.Rec? && m.rec.At() == k && m.rec.body.SnapshotEnd?)
  }

  /** The header of the shadow. */
  function Under(i: Inst): Option<GroupHeader> {
    if i.shadow.Some? then Some(i.shadow.value.header) else None
  }

  lemma AgedUnder(u: Shard, t: Shard, j: Key)
    requires OnlyAged(u, t)
    ensures Under(t.InstFor(j)) == Under(u.InstFor(j))
  {
    if j in t.insts {
      assert Aged(u.InstFor(j), t.insts[j]);
    }
  }

  lemma DeltaUnder(s: Shard, k: Key, d: Delta, w: Shard, evs: seq<Event>, j: Key)
    requires Core(s) && InBudget(s) && HandlesDelta(s, k, d, w, evs)
    ensures Under(w.InstFor(j)) == Under(s.InstFor(j))
  {
    var u, held, spill := DeltaSteps(s, k, d, w, evs);
    BuffersAllOk(u, k, spill, w);
    AgedUnder(u, w, j);
    if k in s.insts && s.insts[k].status == Ready {
      assert KeyOk(s, k);
      ClassifyOk(s.insts[k], d, held);
    }
  }

  lemma DeltaRecordUnder(s: Shard, rec: Record, t: Shard, evs: seq<Event>, j: Key)
    requires Core(s) && InBudget(s) && Handles(s, Rec(rec), t, evs) && rec.body.BookDelta?
    ensures Under(t.InstFor(j)) == Under(s.InstFor(j))
  {
    var k := rec.At();
    var w :| HandlesDelta(s, k, rec.AsDelta(), w, evs) && t == Note(w, k, evs);
    DeltaUnder(s, k, rec.AsDelta(), w, evs, j);
  }

  lemma CommitUnder(s: Shard, k: Key, id: nat, anchor: nat, w: Shard, evs: seq<Event>, j: Key)
    requires Core(s) && InBudget(s) && HandlesEnd(s, k, id, anchor, w, evs) && k in s.insts && Commits(s.insts[k], id, anchor)
    ensures Under(w.InstFor(j)) == if j == k then None else Under(s.InstFor(j))
  {
    var u, held, o := CommitSteps(s, k, id, anchor, w, evs);
    assert KeyOk(s, k);
    EndOk(s.insts[k], id, anchor);
    ReplayShadow(Commit(s.insts[k]), s.Buf(k), held);
    BuffersAllOk(u, k, o.spill, w);
    TakePutSame(s, k, o.inst);
    AgedUnder(u, w, j);
  }

  lemma EndUnder(s: Shard, k: Key, id: nat, anchor: nat, w: Shard, evs: seq<Event>, j: Key)
    requires Core(s) && InBudget(s) && HandlesEnd(s, k, id, anchor, w, evs)
    ensures Under(w.InstFor(j)) == if j == k then None else Under(s.InstFor(j))
  {
    if k in s.insts && Commits(s.insts[k], id, anchor) {
      CommitUnder(s, k, id, anchor, w, evs, j);
    } else {
      DropShadowSame(s, k, id, anchor, w, evs);
    }
  }

  lemma EndRecordUnder(s: Shard, rec: Record, t: Shard, evs: seq<Event>, j: Key)
    requires Core(s) && InBudget(s) && Handles(s, Rec(rec), t, evs) && rec.body.SnapshotEnd?
    ensures Under(t.InstFor(j)) == if j == rec.At() then None else Under(s.InstFor(j))
  {
    var k := rec.At();
    var w :| HandlesEnd(s, k, rec.body.id, rec.body.anchor, w, evs) && t == Note(w, k, evs);
    EndUnder(s, k, rec.body.id, rec.body.anchor, w, evs, j);
  }

  lemma PlainUnder(s: Shard, rec: Record, k: Key)
    requires !rec.body.SnapshotEnd?
    ensures Under(Plain(s, rec.At(), rec.body).InstFor(k)) ==
            if Takes(s, Rec(rec), k) then Some(rec.body.header)
            else if Closes(s, Rec(rec), k) then None else Under(s.InstFor(k))
  {
  }

  lemma UnderStep(s: Shard, m: Message, t: Shard, evs: seq<Event>, k: Key)
    requires Core(s) && InBudget(s) && Handles(s, m, t, evs)
    ensures Under(t.InstFor(k)) ==
            if Takes(s, m, k) then Some(m.rec.body.header) else if Closes(s, m, k) then None else Under(s.InstFor(k))
  {
    if m.Rec? {
      if m.rec.body.BookDelta? {
        DeltaRecordUnder(s, m.rec, t, evs, k);
      } else if m.rec.body.SnapshotEnd? {
        EndRecordUnder(s, m.rec, t, evs, k);
      } else {
        PlainUnder(s, m.rec, k);
      }
    }
  }

  /** Message `j` began the group, and nothing before `n` replaced or closed it. */
  predicate OpenSince(states: seq<Shard>, inbox: seq<Message>, j: nat, n: nat, k: Key)
    requires |states| == |inbox| + 1
  {
    && j < n <= |inbox| && Takes(states[j], inbox[j], k)
    && forall i :: j < i < n ==> !Takes(states[i], inbox[i], k) && !Closes(states[i], inbox[i], k)
  }

  /** Over any run: an instrument has a snapshot under way exactly since a begin it took
      that no other replaced and no end, drop, reset, wipe or prune closed, and it is that
      begin's group. */
  lemma {:induction false} UnderWayExactly(states: seq<Shard>, inbox: seq<Message>, events: seq<seq<Event>>, budget: nat,
                                           n: nat, k: Key)
    requires IsRun(states, inbox, events, budget) && n <= |inbox|
    ensures states[n].InstFor(k).shadow.Some? <==> exists j: nat :: OpenSince(states, inbox, j, n, k)
    ensures forall j: nat :: OpenSince(states, inbox, j, n, k) ==>
              Under(states[n].InstFor(k)) == Some(inbox[j].rec.body.header)
  {
    if n > 0 {
      UnderWayExactly(states, inbox, events, budget, n - 1, k);
      EveryRun(states, inbox, events, budget, n - 1);
      assert HandlesAt(states, inbox, events, n - 1);
      UnderStep(states[n - 1], inbox[n - 1], states[n], events[n - 1], k);
      var still := !Takes(states[n - 1], inbox[n - 1], k) && !Closes(states[n - 1], inbox[n - 1], k);
      assert OpenSince(states, inbox, n - 1, n, k) <==> Takes(states[n - 1], inbox[n - 1], k);
      forall j: nat | j < n - 1
        ensures OpenSince(states, inbox, j, n, k) <==> (OpenSince(states, inbox, j, n - 1, k) && still)
      {
      }
      if states[n].InstFor(k).shadow.Some? && !Takes(states[n - 1], inbox[n - 1], k) {
        var j: nat :| OpenSince(states, inbox, j, n - 1, k);
        assert OpenSince(states, inbox, j, n, k);
      }
    }
  }

  // ---- the Market-by-Order bot ----

  /** A begin while the instrument does not serve. */
  predicate OrdersTake(s: O.OrderShard, m: B.Message, k: Key) {
    m.Rec? && m.rec.At() == k && m.rec.GroupBegin? && s.InstFor(k).status != Ready
  }

  /** An end of its own no older than group `id`, a socket drop, a reset or a wipe. */
  predicate OrdersClose(m: B.Message, k: Key, id: nat) {
    match m
    case Drop => true
    case Wipe(ch) => ch == k.ch
    case Rec(rec) => rec.At() == k && (rec.BookReset? || (rec.GroupEnd? && rec.id >= id))
  }

  function OrdersUnder(i: O.OrderInst): Option<O.OrderHeader> {
    if i.shadow.Some? then Some(i.shadow.value.header) else None
  }

  lemma OrdersUnderStep(s: O.OrderShard, m: B.Message, k: Key)
    ensures var before, after := OrdersUnder(s.InstFor(k)), OrdersUnder(B.Step(s, m).InstFor(k));
            after == if OrdersTake(s, m, k) then Some(m.rec.header)
                     else if before.Some? && OrdersClose(m, k, before.value.id) then None else before
  {
    if m.Rec? {
      RecordUnder(s, m.rec, k);
    }
  }

  lemma RecordUnder(s: O.OrderShard, rec: O.OrderRecord, k: Key)
    ensures var before, after := OrdersUnder(s.InstFor(k)), OrdersUnder(O.HandleRecord(s, rec).InstFor(k));
            after == if OrdersTake(s, B.Rec(rec), k) then Some(rec.header)
                     else if before.Some? && OrdersClose(B.Rec(rec), k, before.value.id) then None else before
  {
    var i := s.InstFor(k);
    if rec.OrderChange? {
      B.DeliverShadow(i, rec.delta);
    } else if rec.GroupEnd? && rec.At() == k && k in s.insts && O.Commits(i, rec.id, rec.anchor) {
      B.ReplayShadow(O.Commit(i), s.ShareOf(k).Deltas());
    }
  }

  predicate OrdersTakeAt(inbox: seq<B.Message>, i: nat, k: Key) {
    i < |inbox| && OrdersTake(B.After(inbox[..i]), inbox[i], k)
  }

  predicate OrdersOpenSince(inbox: seq<B.Message>, j: nat, n: nat, k: Key) {
    && j < n <= |inbox| && OrdersTakeAt(inbox, j, k)
    && forall i: nat :: j < i < n ==> !OrdersTakeAt(inbox, i, k) && !OrdersClose(inbox[i], k, inbox[j].rec.header.id)
  }

  lemma OpenSinceMore(inbox: seq<B.Message>, j: nat, n: nat, k: Key)
    requires n < |inbox|
    ensures j < n ==>
              (OrdersOpenSince(inbox, j, n + 1, k) <==>
               OrdersOpenSince(inbox, j, n, k) && !OrdersTakeAt(inbox, n, k) &&
               !OrdersClose(inbox[n], k, inbox[j].rec.header.id))
    ensures OrdersOpenSince(inbox, n, n + 1, k) <==> OrdersTakeAt(inbox, n, k)
  {
  }

  lemma OneMoreMessage(inbox: seq<B.Message>, n: nat)
    requires n < |inbox|
    ensures B.After(inbox[..n + 1]) == B.Step(B.After(inbox[..n]), inbox[n])
  {
    assert inbox[..n + 1][..n] == inbox[..n];
  }

  lemma UnderAt(inbox: seq<B.Message>, n: nat, k: Key)
    requires n < |inbox|
    ensures var before, after := OrdersUnder(B.After(inbox[..n]).InstFor(k)), OrdersUnder(B.After(inbox[..n + 1]).InstFor(k));
            after == if OrdersTakeAt(inbox, n, k) then Some(inbox[n].rec.header)
                     else if before.Some? && OrdersClose(inbox[n], k, before.value.id) then None else before
  {
    OneMoreMessage(inbox, n);
    OrdersUnderStep(B.After(inbox[..n]), inbox[n], k);
  }

  /** `u` is the header of the group open before `n`. */
  ghost predicate TellsOpen(inbox: seq<B.Message>, n: nat, k: Key, u: Option<O.OrderHeader>) {
    && (u.Some? <==> exists j: nat :: OrdersOpenSince(inbox, j, n, k))
    && (forall j: nat :: OrdersOpenSince(inbox, j, n, k) ==> u == Some(inbox[j].rec.header))
  }

  lemma TellsMore(inbox: seq<B.Message>, n: nat, k: Key, before: Option<O.OrderHeader>)
    requires n < |inbox| && TellsOpen(inbox, n, k, before)
    ensures TellsOpen(inbox, n + 1, k,
              if OrdersTakeAt(inbox, n, k) then Some(inbox[n].rec.header)
              else if before.Some? && OrdersClose(inbox[n], k, before.value.id) then None else before)
  {
    OpenSinceMore(inbox, n, n, k);
    if OrdersTakeAt(inbox, n, k) {
      OnlyTheNewest(inbox, n, n + 1, k);
    } else {
      StillOpen(inbox, n, k, before);
    }
  }

  lemma OnlyTheNewest(inbox: seq<B.Message>, n: nat, next: nat, k: Key)
    requires n < |inbox| && next == n + 1 && OrdersTakeAt(inbox, n, k)
    ensures forall j: nat :: OrdersOpenSince(inbox, j, next, k) ==> j == n
  {
    forall j: nat | OrdersOpenSince(inbox, j, next, k) ensures j == n {
      OpenSinceMore(inbox, j, n, k);
    }
  }

  lemma StillOpen(inbox: seq<B.Message>, n: nat, k: Key, before: Option<O.OrderHeader>)
    requires n < |inbox| && TellsOpen(inbox, n, k, before) && !OrdersTakeAt(inbox, n, k)
    ensures TellsOpen(inbox, n + 1, k, if before.Some? && OrdersClose(inbox[n], k, before.value.id) then None else before)
  {
    forall j: nat | OrdersOpenSince(inbox, j, n + 1, k)
      ensures before == Some(inbox[j].rec.header) && !OrdersClose(inbox[n], k, before.value.id)
    {
      OpenSinceMore(inbox, j, n, k);
      OpenSinceMore(inbox, n, n, k);
    }
    if before.Some? && !OrdersClose(inbox[n], k, before.value.id) {
      var j: nat :| OrdersOpenSince(inbox, j, n, k);
      OpenSinceMore(inbox, j, n, k);
    }
  }

  /** The same for orders, where an end older than the group closes nothing. */
  lemma {:induction false} OrdersUnderWayExactly(inbox: seq<B.Message>, n: nat, k: Key)
    requires n <= |inbox|
    ensures TellsOpen(inbox, n, k, OrdersUnder(B.After(inbox[..n]).InstFor(k)))
  {
    if n == 0 {
      assert inbox[..0] == [];
    } else {
      OrdersUnderWayExactly(inbox, n - 1, k);
      UnderAt(inbox, n - 1, k);
      TellsMore(inbox, n - 1, k, OrdersUnder(B.After(inbox[..n - 1]).InstFor(k)));
    }
  }
}
