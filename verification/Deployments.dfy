/** A deployment of any number of shards, each handling its inbox as the source does,
    against one shard: the results differ by overflow alone. */
module Deployments {
  import opened Wrappers
  import opened Book
  import opened InstrumentSpec
  import opened ShardSpec
  import opened ShardInvariant
  import ChannelMaps
  import opened CoordinatorSpec
  import opened Sharding

  // ---- room ----

  /** How many deltas a message puts in the buffers, seen before it is handled. */
  function Need(s: Shard, m: Message): nat {
    if !m.Rec? || !m.rec.body.BookDelta? then 0
    else
      var k, d := m.rec.At(), m.rec.AsDelta();
      if k !in s.insts || s.insts[k].status != Ready then 1
      else
        var i := s.insts[k];
        if d.piSeq < NextExpected(i) then 0
        else if Malformed(d.change) then |i.pending|
        else if d.piSeq > NextExpected(i) &&
                (|i.pending[d.piSeq := d]| > REORDER_WINDOW || d.piSeq - NextExpected(i) > REORDER_WINDOW) then 1
        else 0
  }

  /** Handling the message overflows nothing. */
  predicate Room(s: Shard, m: Message) {
    s.bufferedN + Need(s, m) <= s.maxBuffered
  }

  lemma {:induction false} SeqsSize(ds: seq<Delta>)
    requires forall j, k :: 0 <= j < k < |ds| ==> ds[j].piSeq != ds[k].piSeq
    ensures |Seqs(ds)| == |ds|
  {
    if ds == [] {
      assert Seqs(ds) == {};
    } else {
      var n := |ds| - 1;
      var init := ds[..n];
      SeqsSize(init);
      assert ds == init + [ds[n]];
      assert Seqs(ds) == Seqs(init) + {ds[n].piSeq};
      assert ds[n].piSeq !in Seqs(init);
    }
  }

  /** A window handed over entry by entry is as many entries. */
  lemma EnumeratesAll(held: seq<Delta>, window: map<nat, Delta>)
    requires Enumerates(held, window) && Keyed(window)
    ensures |held| == |window|
  {
    SeqsSize(held);
    forall s | s in window ensures s in Seqs(held) {
      assert window[s] in held;
    }
    assert Seqs(held) == window.Keys;
    assert |window.Keys| == |window|;
  }

  /** What classification buffers, and what it leaves in the window. */
  lemma SpillSize(i: Inst, d: Delta, held: seq<Delta>)
    requires InstOk(i) && i.status == Ready && Choice(i, d, held)
    ensures var o := Classify(i, d, held);
            && |o.spill| + |o.inst.pending| <= |i.pending| + 1
            && |o.spill| <= REORDER_WINDOW
            && |o.spill| == if d.piSeq < NextExpected(i) then 0
                            else if Malformed(d.change) then |i.pending|
                            else if d.piSeq > NextExpected(i) && (|i.pending[d.piSeq := d]| > REORDER_WINDOW ||
                                                                  d.piSeq - NextExpected(i) > REORDER_WINDOW) then 1
                            else 0
  {
    ReadyExpectsNext(i);
    WindowCount(i, i.pending);
    if d.piSeq == i.lastSeq + 1 && !Malformed(d.change) {
      ContiguousOk(i, d, held);
      DrainedSize(ApplyOne(i, d), Drain(ApplyOne(i, d)));
    } else if IsDemotedByMalformed(i, d) {
      EnumeratesAll(held, i.pending);
    } else if d.piSeq > i.lastSeq + 1 {
      HeldSize(i.pending, d);
    }
  }

  lemma HeldSize(w: map<nat, Delta>, d: Delta)
    ensures |w[d.piSeq := d]| <= |w| + 1
  {
    var v := w[d.piSeq := d];
    assert v.Keys == w.Keys + {d.piSeq};
    assert |v.Keys| == |v| && |w.Keys| == |w|;
  }

  lemma DrainedSize(i: Inst, j: Inst)
    requires DrainedTo(i, j)
    ensures |j.pending| <= |i.pending|
  {
    assert j.pending.Keys <= i.pending.Keys;
    ChannelMaps.SubsetSize(j.pending.Keys, i.pending.Keys);
    assert |j.pending.Keys| == |j.pending| && |i.pending.Keys| == |i.pending|;
  }

  /** A replay buffers again no more than it was given. */
  lemma {:induction false} ReplaySpillSize(i: Inst, buf: seq<Delta>, held: seq<Delta>)
    requires InstOk(i) && ReplayChoice(i, buf, held)
    ensures var o := Replay(i, buf, held); |o.spill| + |o.inst.pending| <= |i.pending| + |buf|
    decreases |buf|
  {
    if buf != [] {
      if buf[0].mseq <= i.lastMkt || i.status != Ready {
        ReplaySpillSize(i, buf[1..], held);
      } else {
        SpillSize(i, buf[0], held);
        ClassifyOk(i, buf[0], held);
        ReplaySpillSize(Classify(i, buf[0], held).inst, buf[1..], held);
      }
    }
  }

  // ---- handling with room is quiet ----

  /** With room for all of it, buffering evicts nothing and has one result. */
  lemma {:induction false} BuffersWithRoom(s: Shard, k: Key, ds: seq<Delta>, t: Shard)
    requires BuffersAll(s, k, ds, t) && s.bufferedN + |ds| <= s.maxBuffered
    ensures t == AppendAll(s, k, ds)
    decreases |ds|
  {
    if ds != [] {
      var m :| Buffers(s, k, ds[0], m) && BuffersAll(m, k, ds[1..], t);
      assert m == Appended(s, k, ds[0]);
      BuffersWithRoom(m, k, ds[1..], t);
      AppendAllFirst(s, k, ds);
    }
  }

  lemma DeltaWithRoom(s: Shard, rec: Record, u: Shard, evs: seq<Event>)
    requires Core(s) && rec.body.BookDelta? && Room(s, Rec(rec))
    requires HandlesDelta(s, rec.At(), rec.AsDelta(), u, evs)
    ensures QuietDelta(s, rec.At(), rec.AsDelta(), u, evs)
  {
    var k, d := rec.At(), rec.AsDelta();
    assert KeyOk(s, k);
    if k !in s.insts || s.insts[k].status != Ready {
      BuffersOne(s, k, d, u);
      BuffersWithRoom(s, k, [d], u);
    } else {
      var held: seq<Delta> :| Choice(s.insts[k], d, held) &&
        var o := Classify(s.insts[k], d, held);
        evs == o.events && BuffersAll(s.Put(k, o.inst), k, o.spill, u);
      var o := Classify(s.insts[k], d, held);
      SpillSize(s.insts[k], d, held);
      BuffersWithRoom(s.Put(k, o.inst), k, o.spill, u);
    }
  }

  /** A commit never overflows: it takes the buffer before it replays it. */
  lemma EndWithRoom(s: Shard, k: Key, id: nat, anchor: nat, u: Shard, evs: seq<Event>)
    requires Core(s) && InBudget(s) && HandlesEnd(s, k, id, anchor, u, evs)
    ensures QuietEnd(s, k, id, anchor, u, evs)
  {
    if k in s.insts && Commits(s.insts[k], id, anchor) {
      var v, held, o := CommitSteps(s, k, id, anchor, u, evs);
      CommitSize(s, k, id, anchor, held);
      BuffersWithRoom(v, k, o.spill, u);
      CommitIsQuiet(s, k, id, anchor, u, evs, held);
    }
  }

  lemma CommitIsQuiet(s: Shard, k: Key, id: nat, anchor: nat, u: Shard, evs: seq<Event>, held: seq<Delta>)
    requires k in s.insts && Commits(s.insts[k], id, anchor)
    requires var o := Replay(Commit(s.insts[k]), s.Buf(k), held);
             && ReplayChoice(Commit(s.insts[k]), s.Buf(k), held)
             && evs == [AppliedSnapshot(id, anchor)] + o.events
             && u == AppendAll(TakeBuffer(s, k).Put(k, o.inst), k, o.spill)
    ensures QuietEnd(s, k, id, anchor, u, evs)
  {
    assert End(s.insts[k], id, anchor) == Commit(s.insts[k]);
  }

  /** What a shard does without overflow is what Sharding reasons about. */
  lemma HandledIsQuiet(s: Shard, m: Message, t: Shard, evs: seq<Event>)
    requires Core(s) && InBudget(s) && Room(s, m) && Handles(s, m, t, evs)
    ensures Quiet(s, m, t, evs)
  {
    if m.Rec? && m.rec.body.BookDelta? {
      var k, d := m.rec.At(), m.rec.AsDelta();
      var u :| HandlesDelta(s, k, d, u, evs) && t == Note(u, k, evs);
      DeltaWithRoom(s, m.rec, u, evs);
    } else if m.Rec? && m.rec.body.SnapshotEnd? {
      var k, id, anchor := m.rec.At(), m.rec.body.id, m.rec.body.anchor;
      var u :| HandlesEnd(s, k, id, anchor, u, evs) && t == Note(u, k, evs);
      EndWithRoom(s, k, id, anchor, u, evs);
    }
  }

  // ---- one shard with a budget to spare ----

  ghost predicate HandlesTo(s: Shard, inbox: seq<Message>, t: Shard)
    decreases |inbox|
  {
    if inbox == [] then t == s
    else exists m, evs :: Handles(s, inbox[0], m, evs) && HandlesTo(m, inbox[1..], t)
  }

  /** No message buffers more than a window's worth. */
  lemma QuietGrowth(s: Shard, m: Message, t: Shard, evs: seq<Event>)
    requires Core(s) && Quiet(s, m, t, evs)
    ensures t.bufferedN <= s.bufferedN + REORDER_WINDOW && t.maxBuffered == s.maxBuffered
  {
    match m
    case Wipe(ch) => DropOk(s, OnChannel(s, ch));
    case Prune(seqNo) => DropOk(s, OutOfManifest(s, seqNo));
    case Rec(rec) =>
      if rec.body.BookDelta? {
        var u :| QuietDelta(s, rec.At(), rec.AsDelta(), u, evs) && t == Note(u, rec.At(), evs);
        DeltaGrowth(s, rec.At(), rec.AsDelta(), u, evs);
      } else if rec.body.SnapshotEnd? {
        var u :| QuietEnd(s, rec.At(), rec.body.id, rec.body.anchor, u, evs) && t == Note(u, rec.At(), evs);
        EndGrowth(s, rec.At(), rec.body.id, rec.body.anchor, u, evs);
      } else {
        PlainOk(s, rec.At(), rec.body);
      }
    case _ =>
  }

  lemma DeltaGrowth(s: Shard, k: Key, d: Delta, u: Shard, evs: seq<Event>)
    requires Core(s) && QuietDelta(s, k, d, u, evs)
    ensures u.bufferedN <= s.bufferedN + REORDER_WINDOW && u.maxBuffered == s.maxBuffered
  {
    assert KeyOk(s, k);
    if k in s.insts && s.insts[k].status == Ready {
      var held: seq<Delta> :| Choice(s.insts[k], d, held) &&
        var o := Classify(s.insts[k], d, held);
        evs == o.events && u == AppendAll(s.Put(k, o.inst), k, o.spill);
      SpillSize(s.insts[k], d, held);
    }
  }

  lemma EndGrowth(s: Shard, k: Key, id: nat, anchor: nat, u: Shard, evs: seq<Event>)
    requires Core(s) && QuietEnd(s, k, id, anchor, u, evs)
    ensures u.bufferedN <= s.bufferedN && u.maxBuffered == s.maxBuffered
  {
    if k in s.insts && Commits(s.insts[k], id, anchor) {
      var i := Commit(s.insts[k]);
      assert i == End(s.insts[k], id, anchor);
      var held: seq<Delta> :| ReplayChoice(i, s.Buf(k), held) &&
        var o := Replay(i, s.Buf(k), held);
        evs == [AppliedSnapshot(id, anchor)] + o.events &&
        u == AppendAll(TakeBuffer(s, k).Put(k, o.inst), k, o.spill);
      CommitSize(s, k, id, anchor, held);
    }
  }

  /** What a commit buffers again is no more than what it took. */
  lemma CommitSize(s: Shard, k: Key, id: nat, anchor: nat, held: seq<Delta>)
    requires Core(s) && k in s.insts && Commits(s.insts[k], id, anchor)
    requires ReplayChoice(Commit(s.insts[k]), s.Buf(k), held)
    ensures |Replay(Commit(s.insts[k]), s.Buf(k), held).spill| <= |s.Buf(k)|
  {
    assert KeyOk(s, k);
    EndOk(s.insts[k], id, anchor);
    ReplaySpillSize(Commit(s.insts[k]), s.Buf(k), held);
    assert |Commit(s.insts[k]).pending| == 0;
  }

  lemma {:induction false} RunIsHandled(s: Shard, inbox: seq<Message>, t: Shard)
    requires Core(s) && RunsTo(s, inbox, t) && s.bufferedN + REORDER_WINDOW * |inbox| <= s.maxBuffered
    ensures HandlesTo(s, inbox, t)
    decreases |inbox|
  {
    if inbox != [] {
      var m, evs :| Quiet(s, inbox[0], m, evs) && RunsTo(m, inbox[1..], t);
      QuietGrowth(s, inbox[0], m, evs);
      QuietIsHandled(s, inbox[0], m, evs);
      CoreKept(s, inbox[0], m, evs);
      RunIsHandled(m, inbox[1..], t);
    }
  }

  // ---- shards that handle ----

  /** As NetStep, with the shards' own steps, none of which overflows. */
  ghost predicate Moves(x: Net, act: Act, y: Net)
    requires |x.queues| == |x.shards|
  {
    match act
    case Push(send) => NetStep(x, act, y)
    case Pop(i) =>
      && i < |x.queues| && x.queues[i] != []
      && y.queues == x.queues[i := x.queues[i][1..]]
      && |y.shards| == |x.shards| && (forall j :: 0 <= j < |x.shards| && j != i ==> y.shards[j] == x.shards[j])
      && Room(x.shards[i], x.queues[i][0])
      && exists evs :: Handles(x.shards[i], x.queues[i][0], y.shards[i], evs)
  }

  ghost predicate Executes(run: seq<Net>, acts: seq<Act>) {
    && |run| == |acts| + 1
    && (forall n :: 0 <= n < |run| ==> |run[n].queues| == |run[n].shards| == |run[0].shards|)
    && forall n :: 0 <= n < |acts| ==> Moves(run[n], acts[n], run[n + 1])
  }

  ghost predicate AllCore(x: Net) {
    forall i :: 0 <= i < |x.shards| ==> Core(x.shards[i]) && InBudget(x.shards[i])
  }

  lemma MoveIsStep(x: Net, act: Act, y: Net)
    requires |x.queues| == |x.shards| && AllCore(x) && Moves(x, act, y)
    ensures NetStep(x, act, y) && AllCore(y)
  {
    if act.Pop? {
      var i := act.i;
      var evs :| Handles(x.shards[i], x.queues[i][0], y.shards[i], evs);
      HandledIsQuiet(x.shards[i], x.queues[i][0], y.shards[i], evs);
      CoreKept(x.shards[i], x.queues[i][0], y.shards[i], evs);
    }
  }

  lemma {:induction false} ExecutionIsSchedule(run: seq<Net>, acts: seq<Act>, n: nat)
    requires Executes(run, acts) && AllCore(run[0]) && n <= |acts|
    ensures AllCore(run[n]) && forall j :: 0 <= j < n ==> NetStep(run[j], acts[j], run[j + 1])
  {
    if n > 0 {
      ExecutionIsSchedule(run, acts, n - 1);
      MoveIsStep(run[n - 1], acts[n - 1], run[n]);
    }
  }

  // ---- the dispatch order ----

  datatype Input = Incoming(rec: Record) | SocketDrop

  function Fed(c: Coordinator, input: Input): Coordinator
    requires c.shards > 0
  {
    match input
    case Incoming(rec) => Dispatched(c, rec)
    case SocketDrop => Disconnected(c)
  }

  function FedSends(c: Coordinator, input: Input): seq<Send>
    requires c.shards > 0
  {
    match input
    case Incoming(rec) => DispatchSends(c, rec)
    case SocketDrop => DISCONNECT_SENDS
  }

  /** Everything a coordinator sends for its inputs, in order. */
  function Everything(c: Coordinator, inputs: seq<Input>): seq<Send>
    requires c.shards > 0
    decreases |inputs|
  {
    if inputs == [] then [] else FedSends(c, inputs[0]) + Next(c, inputs)
  }

  function Next(c: Coordinator, inputs: seq<Input>): seq<Send>
    requires c.shards > 0 && inputs != []
    decreases |inputs|, 0
  {
    KeepsShards(c, inputs[0]);
    Everything(Fed(c, inputs[0]), inputs[1..])
  }

  lemma KeepsShards(c: Coordinator, input: Input)
    requires c.shards > 0
    ensures Fed(c, input).shards == c.shards
  {
  }

  lemma {:induction false} EverythingIsRight(c: Coordinator, inputs: seq<Input>)
    requires RoutesRight(c)
    ensures forall send :: send in Everything(c, inputs) ==> RightShard(send, c.shards)
    decreases |inputs|
  {
    if inputs != [] {
      if inputs[0].Incoming? {
        SendsAreRight(c, inputs[0].rec);
      }
      KeepsShards(c, inputs[0]);
      EverythingIsRight(Fed(c, inputs[0]), inputs[1..]);
    }
  }

  /** Two coordinators that differ in their number of shards and in nothing else. */
  ghost predicate SameChannels(c: Coordinator, e: Coordinator) {
    && c.shards > 0 && e.shards > 0
    && c.resetCount == e.resetCount && c.manifestSeq == e.manifestSeq && c.manifestValid == e.manifestValid
    && c.prevDefinition == e.prevDefinition && SameGroups(c.open, e.open)
  }

  ghost predicate SameGroups(a: map<nat, OpenGroup>, b: map<nat, OpenGroup>) {
    forall ch :: (ch in a <==> ch in b) && (ch in a ==> a[ch].inst == b[ch].inst && a[ch].id == b[ch].id)
  }

  function Bare(sends: seq<Send>): seq<Message> {
    seq(|sends|, j requires 0 <= j < |sends| => sends[j].message)
  }

  lemma {:induction false} FlatIsBare(sends: seq<Send>)
    ensures Flat(sends) == Bare(sends)
  {
    if sends != [] {
      FlatIsBare(sends[1..]);
      assert Bare(sends) == [sends[0].message] + Bare(sends[1..]);
    }
  }

  lemma FlatBoth(a: seq<Send>, b: seq<Send>)
    ensures Flat(a + b) == Flat(a) + Flat(b)
  {
    FlatIsBare(a);
    FlatIsBare(b);
    FlatIsBare(a + b);
    assert Bare(a + b) == Bare(a) + Bare(b);
  }

  lemma SameNoted(c: Coordinator, e: Coordinator, rec: Record)
    requires SameChannels(c, e)
    ensures SameChannels(Noted(c, rec), Noted(e, rec))
  {
    SameOpen(c, e, rec);
    SameOtherwise(c, e, rec);
  }

  lemma SameOpen(c: Coordinator, e: Coordinator, rec: Record)
    requires c.shards > 0 && e.shards > 0 && SameGroups(c.open, e.open)
    ensures SameGroups(Noted(c, rec).open, Noted(e, rec).open)
  {
    match rec.body
    case SnapshotBegin(h) =>
      assert SameGroups(c.open[rec.ch := OpenGroup(rec.inst, h.id, c.ShardFor(rec.inst))],
                        e.open[rec.ch := OpenGroup(rec.inst, h.id, e.ShardFor(rec.inst))]);
    case SnapshotEnd(_, _) => assert SameGroups(c.open - {rec.ch}, e.open - {rec.ch});
    case _ => assert Noted(c, rec).open == c.open && Noted(e, rec).open == e.open;
  }

  lemma SameOtherwise(c: Coordinator, e: Coordinator, rec: Record)
    requires c.shards > 0 && e.shards > 0 && c.resetCount == e.resetCount
    requires c.manifestSeq == e.manifestSeq && c.manifestValid == e.manifestValid
    ensures var x, y := Noted(c, rec), Noted(e, rec);
            && x.shards == c.shards && y.shards == e.shards && x.resetCount == y.resetCount
            && x.manifestSeq == y.manifestSeq && x.manifestValid == y.manifestValid && x.prevDefinition == y.prevDefinition
  {
    NotedParts(c, rec);
    NotedParts(e, rec);
  }

  /** What a record leaves of a coordinator besides its open groups, field by field. */
  lemma NotedParts(c: Coordinator, rec: Record)
    requires c.shards > 0
    ensures var x := Noted(c, rec);
            && x.shards == c.shards
            && x.resetCount == (if rec.ch in c.resetCount then c.resetCount else c.resetCount[rec.ch := rec.resetCount])
            && x.manifestSeq == (if rec.body.ManifestSummary? then rec.body.seqNo else c.manifestSeq)
            && x.manifestValid == (if rec.body.ManifestSummary? then rec.body.valid else c.manifestValid)
            && x.prevDefinition ==
               if rec.body.Definition?
               then Some(DefinitionRef(rec.ch, rec.port, rec.seqNo, rec.msgIndex, rec.inst, rec.body.sourceId)) else None
  {
  }

  lemma SameSends(c: Coordinator, e: Coordinator, rec: Record)
    requires SameChannels(c, e)
    ensures Flat(Sends(c, rec)) == Flat(Sends(e, rec))
  {
    FlatIsBare(Sends(c, rec));
    FlatIsBare(Sends(e, rec));
    assert Bare(Sends(c, rec)) == Bare(Sends(e, rec));
  }

  lemma SameFed(c: Coordinator, e: Coordinator, input: Input)
    requires SameChannels(c, e)
    ensures SameChannels(Fed(c, input), Fed(e, input)) && Flat(FedSends(c, input)) == Flat(FedSends(e, input))
  {
    if input.Incoming? {
      var rec := input.rec;
      if NeedsBarrier(c, rec) {
        SameNoted(AfterBarrier(c, rec), AfterBarrier(e, rec), rec);
        SameSends(AfterBarrier(c, rec), AfterBarrier(e, rec), rec);
        FlatBoth([ToAll(Wipe(rec.ch))], Sends(AfterBarrier(c, rec), rec));
        FlatBoth([ToAll(Wipe(rec.ch))], Sends(AfterBarrier(e, rec), rec));
      } else {
        SameNoted(c, e, rec);
        SameSends(c, e, rec);
      }
    }
  }

  /** The dispatch order has nothing to do with the number of shards. */
  lemma {:induction false} DispatchOrderIsOne(c: Coordinator, e: Coordinator, inputs: seq<Input>)
    requires SameChannels(c, e)
    ensures Flat(Everything(c, inputs)) == Flat(Everything(e, inputs))
    decreases |inputs|
  {
    if inputs != [] {
      SameFed(c, e, inputs[0]);
      KeepsShards(c, inputs[0]);
      KeepsShards(e, inputs[0]);
      DispatchOrderIsOne(Fed(c, inputs[0]), Fed(e, inputs[0]), inputs[1..]);
      FlatBoth(FedSends(c, inputs[0]), Next(c, inputs));
      FlatBoth(FedSends(e, inputs[0]), Next(e, inputs));
    }
  }

  // ---- main result ----

  ghost predicate FreshNet(x: Net, n: nat) {
    && |x.shards| == |x.queues| == n
    && forall i :: 0 <= i < n ==> x.queues[i] == [] && x.shards[i] == NewShard(x.shards[i].maxBuffered)
  }

  lemma FreshCore(x: Net, n: nat)
    requires FreshNet(x, n)
    ensures AllCore(x)
  {
    forall i | 0 <= i < n ensures Core(x.shards[i]) && InBudget(x.shards[i]) {
      forall k ensures KeyOk(x.shards[i], k) {
      }
    }
  }

  /** Start any number of shards and feed their coordinator anything: records, resets,
      socket drops. Let sends and handling interleave in any way, without overflow.
      Once drained, the union of the shards is what a single shard, under a coordinator
      of its own and with budget to spare, can make of the same input. */
  lemma DeploymentIsOneShard(n: nat, inputs: seq<Input>, run: seq<Net>, acts: seq<Act>, budget: nat) returns (a: Shard)
    requires n > 0 && Executes(run, acts) && FreshNet(run[0], n)
    requires Pushed(acts) == Everything(NewCoordinator(n), inputs)
    requires forall i :: 0 <= i < n ==> run[|acts|].queues[i] == []
    requires budget >= REORDER_WINDOW * |Flat(Everything(NewCoordinator(1), inputs))|
    ensures HandlesTo(NewShard(budget), Flat(Everything(NewCoordinator(1), inputs)), a)
    ensures IsUnion(a, run[|acts|].shards)
  {
    FreshCore(run[0], n);
    ExecutionIsSchedule(run, acts, |acts|);
    EverythingIsRight(NewCoordinator(n), inputs);
    DispatchOrderIsOne(NewCoordinator(n), NewCoordinator(1), inputs);
    var one := NewShard(budget);
    assert IsUnion(one, run[0].shards);
    a := DrainedIsOneShard(run, acts, one);
    forall k ensures KeyOk(one, k) {
    }
    RunIsHandled(one, Flat(Everything(NewCoordinator(1), inputs)), a);
  }
}
