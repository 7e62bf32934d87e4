/** Any number of shards, under any scheduling of their FIFO inboxes, come to what
    one shard makes of the dispatch order. */
module Sharding {
  import opened Wrappers
  import opened InstrumentSpec
  import opened ShardSpec
  import opened CoordinatorSpec

  // ---- one message, absent overflow ----

  function InsertAll(buf: seq<Delta>, ds: seq<Delta>): seq<Delta>
    decreases |ds|
  {
    if ds == [] then buf else InsertAll(Insert(buf, ds[0]), ds[1..])
  }

  /** Buffering with room for all of it. */
  function AppendAll(s: Shard, k: Key, ds: seq<Delta>): Shard {
    if ds == [] then s
    else s.(bufs := s.bufs[k := InsertAll(s.Buf(k), ds)], bufferedN := s.bufferedN + |ds|)
  }

  ghost predicate QuietDelta(s: Shard, k: Key, d: Delta, t: Shard, evs: seq<Event>) {
    if k !in s.insts || s.insts[k].status != Ready then evs == [] && t == AppendAll(s, k, [d])
    else
      exists held: seq<Delta> :: Choice(s.insts[k], d, held) &&
        var o := Classify(s.insts[k], d, held);
        evs == o.events && t == AppendAll(s.Put(k, o.inst), k, o.spill)
  }

  ghost predicate QuietEnd(s: Shard, k: Key, id: nat, anchor: nat, t: Shard, evs: seq<Event>) {
    if k !in s.insts || s.insts[k].shadow.None? then t == s && evs == []
    else if !Commits(s.insts[k], id, anchor) then
      t == s.Put(k, End(s.insts[k], id, anchor)) && evs == []
    else
      var i := End(s.insts[k], id, anchor);
      exists held: seq<Delta> :: ReplayChoice(i, s.Buf(k), held) &&
        var o := Replay(i, s.Buf(k), held);
        evs == [AppliedSnapshot(id, anchor)] + o.events &&
        t == AppendAll(TakeBuffer(s, k).Put(k, o.inst), k, o.spill)
  }

  ghost predicate QuietRecord(s: Shard, k: Key, rec: Record, t: Shard, evs: seq<Event>) {
    match rec.body
    case BookDelta(_, _) => exists u :: QuietDelta(s, k, rec.AsDelta(), u, evs) && t == Note(u, k, evs)
    case SnapshotEnd(id, anchor) => exists u :: QuietEnd(s, k, id, anchor, u, evs) && t == Note(u, k, evs)
    case _ => t == Plain(s, k, rec.body) && evs == PlainEvents(rec.body)
  }

  /** Handles, absent overflow. */
  ghost predicate Quiet(s: Shard, m: Message, t: Shard, evs: seq<Event>) {
    match m
    case Rec(rec) => QuietRecord(s, rec.At(), rec, t, evs)
    case _ => Handles(s, m, t, evs)
  }

  lemma AppendAllFirst(s: Shard, k: Key, ds: seq<Delta>)
    requires ds != []
    ensures AppendAll(Appended(s, k, ds[0]), k, ds[1..]) == AppendAll(s, k, ds)
  {
    var m := Appended(s, k, ds[0]);
    assert m.Buf(k) == Insert(s.Buf(k), ds[0]);
    if ds[1..] == [] {
      assert InsertAll(s.Buf(k), ds) == m.Buf(k);
    } else {
      assert m.bufs[k := InsertAll(m.Buf(k), ds[1..])] == s.bufs[k := InsertAll(s.Buf(k), ds)];
    }
  }

  lemma {:induction false} AppendAllBuffers(s: Shard, k: Key, ds: seq<Delta>)
    requires AppendAll(s, k, ds).bufferedN <= s.maxBuffered
    ensures BuffersAll(s, k, ds, AppendAll(s, k, ds))
    decreases |ds|
  {
    if ds != [] {
      AppendAllFirst(s, k, ds);
      assert Buffers(s, k, ds[0], Appended(s, k, ds[0]));
      AppendAllBuffers(Appended(s, k, ds[0]), k, ds[1..]);
    }
  }

  /** A step with no overflow is a step of the shard, whenever its result is within
      budget. */
  lemma QuietIsHandled(s: Shard, m: Message, t: Shard, evs: seq<Event>)
    requires Quiet(s, m, t, evs) && t.bufferedN <= s.maxBuffered
    ensures Handles(s, m, t, evs)
  {
    if m.Rec? && m.rec.body.BookDelta? {
      var k, d := m.rec.At(), m.rec.AsDelta();
      var u :| QuietDelta(s, k, d, u, evs) && t == Note(u, k, evs);
      QuietDeltaIsHandled(s, k, d, u, evs);
    } else if m.Rec? && m.rec.body.SnapshotEnd? {
      var k, id, anchor := m.rec.At(), m.rec.body.id, m.rec.body.anchor;
      var u :| QuietEnd(s, k, id, anchor, u, evs) && t == Note(u, k, evs);
      QuietEndIsHandled(s, k, id, anchor, u, evs);
    }
  }

  lemma QuietDeltaIsHandled(s: Shard, k: Key, d: Delta, u: Shard, evs: seq<Event>)
    requires QuietDelta(s, k, d, u, evs) && u.bufferedN <= s.maxBuffered
    ensures HandlesDelta(s, k, d, u, evs)
  {
    if k !in s.insts || s.insts[k].status != Ready {
      assert InsertAll(s.Buf(k), [d]) == Insert(s.Buf(k), d);
    } else {
      var held: seq<Delta> :| Choice(s.insts[k], d, held) &&
        var o := Classify(s.insts[k], d, held);
        evs == o.events && u == AppendAll(s.Put(k, o.inst), k, o.spill);
      var o := Classify(s.insts[k], d, held);
      AppendAllBuffers(s.Put(k, o.inst), k, o.spill);
    }
  }

  lemma QuietEndIsHandled(s: Shard, k: Key, id: nat, anchor: nat, u: Shard, evs: seq<Event>)
    requires QuietEnd(s, k, id, anchor, u, evs) && u.bufferedN <= s.maxBuffered
    ensures HandlesEnd(s, k, id, anchor, u, evs)
  {
    if k in s.insts && s.insts[k].shadow.Some? && Commits(s.insts[k], id, anchor) {
      var i := End(s.insts[k], id, anchor);
      var held: seq<Delta> :| ReplayChoice(i, s.Buf(k), held) &&
        var o := Replay(i, s.Buf(k), held);
        evs == [AppliedSnapshot(id, anchor)] + o.events &&
        u == AppendAll(TakeBuffer(s, k).Put(k, o.inst), k, o.spill);
      var o := Replay(i, s.Buf(k), held);
      AppendAllBuffers(TakeBuffer(s, k).Put(k, o.inst), k, o.spill);
    }
  }

  // ---- two shards that agree on a key ----

  ghost predicate SameEntry<V>(a: map<Key, V>, b: map<Key, V>, k: Key) {
    (k in a <==> k in b) && (k in a ==> a[k] == b[k])
  }

  /** Everything two shards hold for `k` is the same. */
  ghost predicate AgreeAt(a: Shard, b: Shard, k: Key) {
    && SameEntry(a.insts, b.insts, k) && SameEntry(a.refdata, b.refdata, k) && SameEntry(a.bufs, b.bufs, k)
    && (k in a.touched <==> k in b.touched) && (k in a.crossed <==> k in b.crossed)
  }

  /** `t` is `s` but for what it holds for `k`. */
  ghost predicate OnlyAt(s: Shard, t: Shard, k: Key) {
    t.sawBoundary == s.sawBoundary && forall j :: j != k ==> AgreeAt(s, t, j)
  }

  /** The same thing happened at `k`, and nothing elsewhere. */
  ghost predicate Lifted(a: Shard, b: Shard, k: Key, a': Shard, b': Shard) {
    AgreeAt(a', b', k) && OnlyAt(a, a', k) && OnlyAt(b, b', k)
  }

  lemma OnlyAtBoth(s: Shard, t: Shard, u: Shard, k: Key)
    requires OnlyAt(s, t, k) && OnlyAt(t, u, k)
    ensures OnlyAt(s, u, k)
  {
    forall j | j != k ensures AgreeAt(s, u, j) {
      assert AgreeAt(s, t, j) && AgreeAt(t, u, j);
    }
  }

  lemma OnlyAtPut(s: Shard, k: Key, i: Inst)
    ensures OnlyAt(s, s.Put(k, i), k)
  {
  }

  lemma OnlyAtAppend(s: Shard, k: Key, ds: seq<Delta>)
    ensures OnlyAt(s, AppendAll(s, k, ds), k)
  {
  }

  lemma OnlyAtTake(s: Shard, k: Key)
    ensures OnlyAt(s, TakeBuffer(s, k), k)
  {
  }

  lemma OnlyAtNote(s: Shard, k: Key, evs: seq<Event>)
    ensures OnlyAt(s, Note(s, k, evs), k)
  {
  }

  lemma OnlyAtSpill(s: Shard, k: Key, i: Inst, ds: seq<Delta>)
    ensures OnlyAt(s, AppendAll(s.Put(k, i), k, ds), k)
  {
    OnlyAtPut(s, k, i);
    OnlyAtAppend(s.Put(k, i), k, ds);
    OnlyAtBoth(s, s.Put(k, i), AppendAll(s.Put(k, i), k, ds), k);
  }

  lemma AppendAgrees(a: Shard, b: Shard, k: Key, ds: seq<Delta>)
    requires AgreeAt(a, b, k)
    ensures AgreeAt(AppendAll(a, k, ds), AppendAll(b, k, ds), k)
  {
    assert a.Buf(k) == b.Buf(k);
  }

  lemma SpillLifts(a: Shard, b: Shard, k: Key, i: Inst, ds: seq<Delta>)
    requires AgreeAt(a, b, k)
    ensures Lifted(a, b, k, AppendAll(a.Put(k, i), k, ds), AppendAll(b.Put(k, i), k, ds))
  {
    AppendAgrees(a.Put(k, i), b.Put(k, i), k, ds);
    OnlyAtSpill(a, k, i, ds);
    OnlyAtSpill(b, k, i, ds);
  }

  lemma BufferLifts(a: Shard, b: Shard, k: Key, ds: seq<Delta>)
    requires AgreeAt(a, b, k)
    ensures Lifted(a, b, k, AppendAll(a, k, ds), AppendAll(b, k, ds))
  {
    AppendAgrees(a, b, k, ds);
    OnlyAtAppend(a, k, ds);
    OnlyAtAppend(b, k, ds);
  }

  lemma TakenSpillLifts(a: Shard, b: Shard, k: Key, i: Inst, ds: seq<Delta>)
    requires AgreeAt(a, b, k)
    ensures Lifted(a, b, k, AppendAll(TakeBuffer(a, k).Put(k, i), k, ds), AppendAll(TakeBuffer(b, k).Put(k, i), k, ds))
  {
    var u, v := TakeBuffer(a, k), TakeBuffer(b, k);
    OnlyAtTake(a, k);
    OnlyAtTake(b, k);
    SpillLifts(u, v, k, i, ds);
    OnlyAtBoth(a, u, AppendAll(u.Put(k, i), k, ds), k);
    OnlyAtBoth(b, v, AppendAll(v.Put(k, i), k, ds), k);
  }

  lemma PutLifts(a: Shard, b: Shard, k: Key, i: Inst)
    requires AgreeAt(a, b, k)
    ensures Lifted(a, b, k, a.Put(k, i), b.Put(k, i))
  {
    OnlyAtPut(a, k, i);
    OnlyAtPut(b, k, i);
  }

  lemma NoteAgrees(a: Shard, b: Shard, k: Key, evs: seq<Event>)
    requires AgreeAt(a, b, k) && a.sawBoundary == b.sawBoundary
    ensures AgreeAt(Note(a, k, evs), Note(b, k, evs), k)
  {
  }

  lemma NoteLifts(a: Shard, b: Shard, k: Key, a': Shard, b': Shard, evs: seq<Event>)
    requires Lifted(a, b, k, a', b') && a.sawBoundary == b.sawBoundary
    ensures Lifted(a, b, k, Note(a', k, evs), Note(b', k, evs))
  {
    NoteAgrees(a', b', k, evs);
    OnlyAtNote(a', k, evs);
    OnlyAtNote(b', k, evs);
    OnlyAtBoth(a, a', Note(a', k, evs), k);
    OnlyAtBoth(b, b', Note(b', k, evs), k);
  }

  lemma LiftDelta(a: Shard, b: Shard, k: Key, d: Delta, b': Shard, evs: seq<Event>) returns (a': Shard)
    requires AgreeAt(a, b, k) && QuietDelta(b, k, d, b', evs)
    ensures QuietDelta(a, k, d, a', evs) && Lifted(a, b, k, a', b')
  {
    if k !in b.insts || b.insts[k].status != Ready {
      a' := AppendAll(a, k, [d]);
      BufferLifts(a, b, k, [d]);
    } else {
      var held: seq<Delta> :| Choice(b.insts[k], d, held) &&
        var o := Classify(b.insts[k], d, held);
        evs == o.events && b' == AppendAll(b.Put(k, o.inst), k, o.spill);
      var o := Classify(b.insts[k], d, held);
      a' := AppendAll(a.Put(k, o.inst), k, o.spill);
      SpillLifts(a, b, k, o.inst, o.spill);
    }
  }

  lemma LiftEnd(a: Shard, b: Shard, k: Key, id: nat, anchor: nat, b': Shard, evs: seq<Event>) returns (a': Shard)
    requires AgreeAt(a, b, k) && QuietEnd(b, k, id, anchor, b', evs)
    ensures QuietEnd(a, k, id, anchor, a', evs) && Lifted(a, b, k, a', b')
  {
    if k !in b.insts || b.insts[k].shadow.None? {
      a' := a;
    } else if !Commits(b.insts[k], id, anchor) {
      a' := a.Put(k, End(b.insts[k], id, anchor));
      PutLifts(a, b, k, End(b.insts[k], id, anchor));
    } else {
      a' := LiftCommit(a, b, k, id, anchor, b', evs);
    }
  }

  lemma LiftCommit(a: Shard, b: Shard, k: Key, id: nat, anchor: nat, b': Shard, evs: seq<Event>) returns (a': Shard)
    requires AgreeAt(a, b, k) && QuietEnd(b, k, id, anchor, b', evs)
    requires k in b.insts && Commits(b.insts[k], id, anchor)
    ensures QuietEnd(a, k, id, anchor, a', evs) && Lifted(a, b, k, a', b')
  {
    var i := End(b.insts[k], id, anchor);
    var held: seq<Delta> :| ReplayChoice(i, b.Buf(k), held) &&
      var o := Replay(i, b.Buf(k), held);
      evs == [AppliedSnapshot(id, anchor)] + o.events &&
      b' == AppendAll(TakeBuffer(b, k).Put(k, o.inst), k, o.spill);
    var o := Replay(i, b.Buf(k), held);
    a' := AppendAll(TakeBuffer(a, k).Put(k, o.inst), k, o.spill);
    TakenSpillLifts(a, b, k, o.inst, o.spill);
  }

  lemma OnlyAtPlain(s: Shard, k: Key, body: Body)
    requires !body.Boundary?
    ensures OnlyAt(s, Plain(s, k, body), k)
  {
  }

  lemma PlainLifts(a: Shard, b: Shard, k: Key, body: Body)
    requires AgreeAt(a, b, k) && !body.Boundary?
    ensures Lifted(a, b, k, Plain(a, k, body), Plain(b, k, body))
  {
    assert a.Buf(k) == b.Buf(k) && a.InstFor(k) == b.InstFor(k);
    OnlyAtPlain(a, k, body);
    OnlyAtPlain(b, k, body);
  }

  /** A record's step can be taken by any shard that agrees on its key, with the same
      effect there and none elsewhere. */
  lemma LiftRecord(a: Shard, b: Shard, rec: Record, b': Shard, evs: seq<Event>) returns (a': Shard)
    requires AgreeAt(a, b, rec.At()) && a.sawBoundary == b.sawBoundary && !rec.body.Boundary?
    requires QuietRecord(b, rec.At(), rec, b', evs)
    ensures QuietRecord(a, rec.At(), rec, a', evs) && Lifted(a, b, rec.At(), a', b')
  {
    var k := rec.At();
    match rec.body
    case BookDelta(_, _) =>
      var v :| QuietDelta(b, k, rec.AsDelta(), v, evs) && b' == Note(v, k, evs);
      var u := LiftDelta(a, b, k, rec.AsDelta(), v, evs);
      NoteLifts(a, b, k, u, v, evs);
      a' := Note(u, k, evs);
    case SnapshotEnd(id, anchor) =>
      var v :| QuietEnd(b, k, id, anchor, v, evs) && b' == Note(v, k, evs);
      var u := LiftEnd(a, b, k, id, anchor, v, evs);
      NoteLifts(a, b, k, u, v, evs);
      a' := Note(u, k, evs);
    case _ =>
      PlainLifts(a, b, k, rec.body);
      a' := Plain(a, k, rec.body);
  }

  // ---- all shards ----

  /** `a` holds for every key what the shard that owns it holds. */
  ghost predicate IsUnion(a: Shard, bs: seq<Shard>) {
    && |bs| > 0
    && (forall k: Key :: AgreeAt(a, bs[k.id % |bs|], k))
    && (forall i :: 0 <= i < |bs| ==> bs[i].sawBoundary == a.sawBoundary)
  }

  /** A message that goes to every shard. */
  predicate IsBroadcast(m: Message) {
    m.Rec? ==> m.rec.body.Boundary?
  }

  ghost function Whole(s: Shard, m: Message): Shard
    requires IsBroadcast(m)
  {
    match m
    case Rec(_) => HandleBoundary(s)
    case Wipe(ch) => HandleWipe(s, ch)
    case Prune(seqNo) => HandlePrune(s, seqNo)
    case ClearShadows => HandleClearShadows(s)
    case Fence => s
  }

  lemma DropAgrees(a: Shard, b: Shard, ks: set<Key>, ls: set<Key>, k: Key)
    requires AgreeAt(a, b, k)
    requires k in ks <==> k in ls
    ensures AgreeAt(DropKeys(a, ks), DropKeys(b, ls), k)
  {
  }

  lemma BoundaryAgrees(a: Shard, b: Shard, k: Key)
    requires AgreeAt(a, b, k)
    ensures AgreeAt(HandleBoundary(a), HandleBoundary(b), k)
  {
  }

  lemma WholeAgrees(a: Shard, b: Shard, m: Message, k: Key)
    requires IsBroadcast(m) && AgreeAt(a, b, k) && a.sawBoundary == b.sawBoundary
    ensures AgreeAt(Whole(a, m), Whole(b, m), k) && Whole(a, m).sawBoundary == Whole(b, m).sawBoundary
  {
    match m
    case Rec(_) => BoundaryAgrees(a, b, k);
    case Wipe(ch) => DropAgrees(a, b, OnChannel(a, ch), OnChannel(b, ch), k);
    case Prune(seqNo) => DropAgrees(a, b, OutOfManifest(a, seqNo), OutOfManifest(b, seqNo), k);
    case ClearShadows =>
    case Fence =>
  }

  /** A send the coordinator makes: a record to the shard that owns its instrument,
      anything else to all of them. */
  predicate RightShard(send: Send, n: nat)
    requires n > 0
  {
    match send
    case To(i, m) => m.Rec? && !m.rec.body.Boundary? && i == m.rec.inst % n
    case ToAll(m) => IsBroadcast(m)
  }

  /** What one send puts in shard `i`'s inbox. */
  function Share(send: Send, i: nat): seq<Message> {
    if send.ToAll? || send.shard == i then [send.message] else []
  }

  /** Shard `i`'s inbox, in dispatch order. */
  function Project(sent: seq<Send>, i: nat): seq<Message> {
    if sent == [] then [] else Share(sent[0], i) + Project(sent[1..], i)
  }

  /** The inbox a single shard would have. */
  function Flat(sent: seq<Send>): seq<Message> {
    if sent == [] then [] else [sent[0].message] + Flat(sent[1..])
  }

  ghost predicate RunsTo(s: Shard, inbox: seq<Message>, t: Shard)
    decreases |inbox|
  {
    if inbox == [] then t == s
    else exists m, evs :: Quiet(s, inbox[0], m, evs) && RunsTo(m, inbox[1..], t)
  }

  lemma OneToUnion(a: Shard, bs: seq<Shard>, rec: Record, b': Shard, evs: seq<Event>) returns (a': Shard)
    requires IsUnion(a, bs) && !rec.body.Boundary?
    requires QuietRecord(bs[rec.inst % |bs|], rec.At(), rec, b', evs)
    ensures QuietRecord(a, rec.At(), rec, a', evs) && IsUnion(a', bs[rec.inst % |bs| := b'])
  {
    var i, k := rec.inst % |bs|, rec.At();
    assert AgreeAt(a, bs[k.id % |bs|], k);
    a' := LiftRecord(a, bs[i], rec, b', evs);
    var cs := bs[i := b'];
    forall j: Key ensures AgreeAt(a', cs[j.id % |cs|], j) {
      assert AgreeAt(a, bs[j.id % |bs|], j);
      if j != k {
        assert AgreeAt(a, a', j) && AgreeAt(bs[i], b', j);
      }
    }
  }

  lemma AllToUnion(a: Shard, bs: seq<Shard>, m: Message)
    requires IsUnion(a, bs) && IsBroadcast(m)
    ensures IsUnion(Whole(a, m), seq(|bs|, i requires 0 <= i < |bs| => Whole(bs[i], m)))
  {
    var cs := seq(|bs|, i requires 0 <= i < |bs| => Whole(bs[i], m));
    forall k: Key ensures AgreeAt(Whole(a, m), cs[k.id % |cs|], k) {
      assert AgreeAt(a, bs[k.id % |bs|], k);
      WholeAgrees(a, bs[k.id % |bs|], m, k);
    }
    forall i | 0 <= i < |cs| ensures cs[i].sawBoundary == Whole(a, m).sawBoundary {
    }
  }

  ghost predicate AllRun(bs: seq<Shard>, sent: seq<Send>, cs: seq<Shard>) {
    |cs| == |bs| && forall i :: 0 <= i < |bs| ==> RunsTo(bs[i], Project(sent, i), cs[i])
  }

  /** The shards' runs over what was sent to each, and one shard's run over all of it
      in dispatch order, end in the same place. */
  lemma {:induction false} ShardsAreOne(a: Shard, bs: seq<Shard>, sent: seq<Send>, cs: seq<Shard>) returns (a': Shard)
    requires IsUnion(a, bs) && AllRun(bs, sent, cs)
    requires forall send :: send in sent ==> RightShard(send, |bs|)
    ensures RunsTo(a, Flat(sent), a') && IsUnion(a', cs)
    decreases |sent|
  {
    if sent == [] {
      NothingSent(bs, cs);
      a' := a;
    } else {
      assert sent[0] in sent && forall send :: send in sent[1..] ==> send in sent;
      var a1, bs1 := FirstSend(a, bs, sent, cs);
      a' := ShardsAreOne(a1, bs1, sent[1..], cs);
      RunsFirst(a, a1, sent, a');
    }
  }

  lemma NothingSent(bs: seq<Shard>, cs: seq<Shard>)
    requires AllRun(bs, [], cs)
    ensures cs == bs
  {
    forall i | 0 <= i < |bs| ensures cs[i] == bs[i] {
      assert RunsTo(bs[i], Project([], i), cs[i]);
    }
  }

  lemma RunsFirst(a: Shard, a1: Shard, sent: seq<Send>, a': Shard)
    requires sent != [] && (exists evs :: Quiet(a, sent[0].message, a1, evs)) && RunsTo(a1, Flat(sent[1..]), a')
    ensures RunsTo(a, Flat(sent), a')
  {
    var evs :| Quiet(a, sent[0].message, a1, evs);
    var inbox := Flat(sent);
    assert inbox[1..] == Flat(sent[1..]);
    assert Quiet(a, inbox[0], a1, evs) && RunsTo(a1, inbox[1..], a');
  }

  lemma FirstSend(a: Shard, bs: seq<Shard>, sent: seq<Send>, cs: seq<Shard>)
      returns (a1: Shard, bs1: seq<Shard>)
    requires IsUnion(a, bs) && AllRun(bs, sent, cs) && sent != [] && RightShard(sent[0], |bs|)
    ensures |bs1| == |bs| && IsUnion(a1, bs1) && AllRun(bs1, sent[1..], cs)
    ensures exists evs :: Quiet(a, sent[0].message, a1, evs)
  {
    if sent[0].To? {
      a1, bs1 := FirstTo(a, bs, sent, cs);
    } else {
      a1, bs1 := FirstToAll(a, bs, sent, cs);
    }
  }

  lemma FirstTo(a: Shard, bs: seq<Shard>, sent: seq<Send>, cs: seq<Shard>)
      returns (a1: Shard, bs1: seq<Shard>)
    requires IsUnion(a, bs) && AllRun(bs, sent, cs) && sent != [] && RightShard(sent[0], |bs|) && sent[0].To?
    ensures |bs1| == |bs| && IsUnion(a1, bs1) && AllRun(bs1, sent[1..], cs)
    ensures exists evs :: Quiet(a, sent[0].message, a1, evs)
  {
    var i, m, rest := sent[0].shard, sent[0].message, sent[1..];
    assert RunsTo(bs[i], [m] + Project(rest, i), cs[i]);
    var b1, evs := FirstStep(bs[i], m, Project(rest, i), cs[i]);
    a1 := OneToUnion(a, bs, m.rec, b1, evs);
    assert Quiet(a, m, a1, evs);
    bs1 := bs[i := b1];
    OthersRun(bs, sent, cs, i, b1);
  }

  lemma OthersRun(bs: seq<Shard>, sent: seq<Send>, cs: seq<Shard>, i: nat, b1: Shard)
    requires AllRun(bs, sent, cs) && sent != [] && sent[0] == To(i, sent[0].message) && i < |bs|
    requires RunsTo(b1, Project(sent[1..], i), cs[i])
    ensures AllRun(bs[i := b1], sent[1..], cs)
  {
    forall j | 0 <= j < |bs| ensures RunsTo(bs[i := b1][j], Project(sent[1..], j), cs[j]) {
      assert RunsTo(bs[j], Project(sent, j), cs[j]);
      if j != i {
        assert Project(sent, j) == Project(sent[1..], j);
      }
    }
  }

  lemma FirstToAll(a: Shard, bs: seq<Shard>, sent: seq<Send>, cs: seq<Shard>)
      returns (a1: Shard, bs1: seq<Shard>)
    requires IsUnion(a, bs) && AllRun(bs, sent, cs) && sent != [] && RightShard(sent[0], |bs|) && sent[0].ToAll?
    ensures |bs1| == |bs| && IsUnion(a1, bs1) && AllRun(bs1, sent[1..], cs)
    ensures exists evs :: Quiet(a, sent[0].message, a1, evs)
  {
    var m, rest := sent[0].message, sent[1..];
    a1 := Whole(a, m);
    bs1 := seq(|bs|, i requires 0 <= i < |bs| => Whole(bs[i], m));
    AllToUnion(a, bs, m);
    WholeIsQuiet(a, m);
    forall j | 0 <= j < |bs1| ensures RunsTo(bs1[j], Project(rest, j), cs[j]) {
      assert RunsTo(bs[j], Project(sent, j), cs[j]);
      assert Project(sent, j) == [m] + Project(rest, j);
      var b1, evs := FirstStep(bs[j], m, Project(rest, j), cs[j]);
      WholeOnly(bs[j], m, b1, evs);
    }
  }

  lemma FirstStep(s: Shard, m: Message, rest: seq<Message>, t: Shard) returns (s1: Shard, evs: seq<Event>)
    requires RunsTo(s, [m] + rest, t)
    ensures Quiet(s, m, s1, evs) && RunsTo(s1, rest, t)
  {
    var inbox := [m] + rest;
    assert inbox[0] == m && inbox[1..] == rest;
    s1, evs :| Quiet(s, inbox[0], s1, evs) && RunsTo(s1, inbox[1..], t);
  }

  lemma WholeIsQuiet(s: Shard, m: Message)
    requires IsBroadcast(m)
    ensures Quiet(s, m, Whole(s, m), if m.Rec? then [BatchBoundary] else [])
  {
  }

  lemma WholeOnly(s: Shard, m: Message, t: Shard, evs: seq<Event>)
    requires IsBroadcast(m) && Quiet(s, m, t, evs)
    ensures t == Whole(s, m)
  {
  }

  // ---- scheduling ----

  /** The shards and their inboxes. */
  datatype Net = Net(queues: seq<seq<Message>>, shards: seq<Shard>)

  /** The coordinator sends, or some shard handles the head of its inbox. */
  datatype Act = Push(send: Send) | Pop(i: nat)

  ghost predicate NetStep(x: Net, act: Act, y: Net)
    requires |x.queues| == |x.shards|
  {
    match act
    case Push(send) =>
      && y.shards == x.shards && |y.queues| == |x.queues|
      && forall i :: 0 <= i < |x.queues| ==>
           y.queues[i] == x.queues[i] + Share(send, i)
    case Pop(i) =>
      && i < |x.queues| && x.queues[i] != []
      && y.queues == x.queues[i := x.queues[i][1..]]
      && |y.shards| == |x.shards| && (forall j :: 0 <= j < |x.shards| && j != i ==> y.shards[j] == x.shards[j])
      && exists evs :: Quiet(x.shards[i], x.queues[i][0], y.shards[i], evs)
  }

  ghost predicate Schedule(run: seq<Net>, acts: seq<Act>) {
    && |run| == |acts| + 1
    && (forall n :: 0 <= n < |run| ==> |run[n].queues| == |run[n].shards| == |run[0].shards|)
    && forall n :: 0 <= n < |acts| ==> NetStep(run[n], acts[n], run[n + 1])
  }

  function Pushed(acts: seq<Act>): seq<Send> {
    if acts == [] then []
    else Pushed(acts[..|acts| - 1]) +
         (if acts[|acts| - 1].Push? then [acts[|acts| - 1].send] else [])
  }

  lemma {:induction false} ProjectBoth(a: seq<Send>, b: seq<Send>, i: nat)
    ensures Project(a + b, i) == Project(a, i) + Project(b, i)
  {
    if a == [] {
      assert a + b == b;
    } else {
      assert (a + b)[1..] == a[1..] + b && (a + b)[0] == a[0];
      ProjectBoth(a[1..], b, i);
      Assoc(Share(a[0], i), Project(a[1..], i), Project(b, i));
    }
  }

  lemma Assoc<T>(a: seq<T>, b: seq<T>, c: seq<T>)
    ensures (a + b) + c == a + (b + c)
  {
  }

  lemma ProjectOne(send: Send, i: nat)
    ensures Project([send], i) == Share(send, i)
  {
    assert [send][1..] == [];
    assert Share(send, i) + [] == Share(send, i);
  }

  lemma {:induction false} RunsOn(s: Shard, inbox: seq<Message>, t: Shard, m: Message, u: Shard, evs: seq<Event>)
    requires RunsTo(s, inbox, t) && Quiet(t, m, u, evs)
    ensures RunsTo(s, inbox + [m], u)
    decreases |inbox|
  {
    if inbox == [] {
      assert inbox + [m] == [m] && [m][1..] == [];
      assert Quiet(s, [m][0], u, evs) && RunsTo(u, [m][1..], u);
    } else {
      var s1, es :| Quiet(s, inbox[0], s1, es) && RunsTo(s1, inbox[1..], t);
      RunsOn(s1, inbox[1..], t, m, u, evs);
      var all := inbox + [m];
      assert all[1..] == inbox[1..] + [m];
      assert Quiet(s, all[0], s1, es) && RunsTo(s1, all[1..], u);
    }
  }

  /** What a shard has handled and what it has queued are what it was sent. */
  ghost predicate InOrderAt(x0: Net, x: Net, sent: seq<Send>, i: nat)
    requires i < |x0.shards| == |x.shards| == |x.queues|
  {
    exists inbox :: inbox + x.queues[i] == Project(sent, i) && RunsTo(x0.shards[i], inbox, x.shards[i])
  }

  lemma InOrderPush(x0: Net, x: Net, send: Send, y: Net, sent: seq<Send>, i: nat)
    requires i < |x0.shards| == |x.shards| == |x.queues| == |y.shards| == |y.queues|
    requires NetStep(x, Push(send), y) && InOrderAt(x0, x, sent, i)
    ensures InOrderAt(x0, y, sent + [send], i)
  {
    var inbox :| inbox + x.queues[i] == Project(sent, i) && RunsTo(x0.shards[i], inbox, x.shards[i]);
    ProjectBoth(sent, [send], i);
    ProjectOne(send, i);
    Assoc(inbox, x.queues[i], Share(send, i));
    assert inbox + y.queues[i] == Project(sent + [send], i);
  }

  lemma PopOwn(s0: Shard, inbox: seq<Message>, s: Shard, queue: seq<Message>, t: Shard, evs: seq<Event>)
    requires RunsTo(s0, inbox, s) && queue != [] && Quiet(s, queue[0], t, evs)
    ensures RunsTo(s0, inbox + [queue[0]], t) && (inbox + [queue[0]]) + queue[1..] == inbox + queue
  {
    RunsOn(s0, inbox, s, queue[0], t, evs);
  }

  lemma InOrderPop(x0: Net, x: Net, j: nat, y: Net, sent: seq<Send>, i: nat)
    requires i < |x0.shards| == |x.shards| == |x.queues| == |y.shards| == |y.queues|
    requires NetStep(x, Pop(j), y) && InOrderAt(x0, x, sent, i)
    ensures InOrderAt(x0, y, sent, i)
  {
    var inbox :| inbox + x.queues[i] == Project(sent, i) && RunsTo(x0.shards[i], inbox, x.shards[i]);
    if j == i {
      var evs :| Quiet(x.shards[i], x.queues[i][0], y.shards[i], evs);
      PopOwn(x0.shards[i], inbox, x.shards[i], x.queues[i], y.shards[i], evs);
    } else {
      assert inbox + y.queues[i] == Project(sent, i);
    }
  }

  lemma {:induction false} InOrderAlways(run: seq<Net>, acts: seq<Act>, n: nat, i: nat)
    requires Schedule(run, acts) && n <= |acts| && i < |run[0].shards|
    requires run[0].queues[i] == []
    ensures InOrderAt(run[0], run[n], Pushed(acts[..n]), i)
  {
    if n == 0 {
      assert [] + run[0].queues[i] == Project([], i) && RunsTo(run[0].shards[i], [], run[0].shards[i]);
    } else {
      InOrderAlways(run, acts, n - 1, i);
      assert acts[..n][..n - 1] == acts[..n - 1];
      var sent := Pushed(acts[..n - 1]);
      match acts[n - 1]
      case Push(send) => InOrderPush(run[0], run[n - 1], send, run[n], sent, i);
      case Pop(j) =>
        InOrderPop(run[0], run[n - 1], j, run[n], sent, i);
        assert Pushed(acts[..n]) == sent;
    }
  }

  /** However the sends and the shards' handling interleave: once every inbox is
      drained, the union of the shards is what one shard makes of the dispatch
      order. */
  lemma DrainedIsOneShard(run: seq<Net>, acts: seq<Act>, a: Shard) returns (a': Shard)
    requires Schedule(run, acts) && IsUnion(a, run[0].shards)
    requires forall i :: 0 <= i < |run[0].queues| ==> run[0].queues[i] == [] && run[|acts|].queues[i] == []
    requires forall send :: send in Pushed(acts) ==> RightShard(send, |run[0].shards|)
    ensures RunsTo(a, Flat(Pushed(acts)), a') && IsUnion(a', run[|acts|].shards)
  {
    var bs, cs, sent := run[0].shards, run[|acts|].shards, Pushed(acts);
    assert acts[..|acts|] == acts;
    forall i | 0 <= i < |bs| ensures RunsTo(bs[i], Project(sent, i), cs[i]) {
      InOrderAlways(run, acts, |acts|, i);
      var inbox :| inbox + run[|acts|].queues[i] == Project(sent, i) && RunsTo(bs[i], inbox, cs[i]);
      assert inbox + [] == inbox;
    }
    a' := ShardsAreOne(a, bs, sent, cs);
  }

  // ---- the coordinator's sends ----

  /** Every open group is routed to its instrument's shard. */
  predicate RoutesRight(c: Coordinator) {
    c.shards > 0 && forall ch :: ch in c.open ==> c.open[ch].shard == c.open[ch].inst % c.shards
  }

  lemma SendsAreRight(c: Coordinator, rec: Record)
    requires RoutesRight(c)
    ensures RoutesRight(Dispatched(c, rec)) && Dispatched(c, rec).shards == c.shards
    ensures forall send :: send in DispatchSends(c, rec) ==> RightShard(send, c.shards)
  {
  }

  function Coordinated(c: Coordinator, recs: seq<Record>): Coordinator
    requires c.shards > 0
    ensures Coordinated(c, recs).shards == c.shards
    decreases |recs|
  {
    if recs == [] then c else Coordinated(Dispatched(c, recs[0]), recs[1..])
  }

  /** Everything a sequence of records sends, in dispatch order. */
  function AllSends(c: Coordinator, recs: seq<Record>): seq<Send>
    requires c.shards > 0
    decreases |recs|
  {
    if recs == [] then [] else DispatchSends(c, recs[0]) + AllSends(Dispatched(c, recs[0]), recs[1..])
  }

  lemma {:induction false} AllSendsAreRight(c: Coordinator, recs: seq<Record>)
    requires RoutesRight(c)
    ensures forall send :: send in AllSends(c, recs) ==> RightShard(send, c.shards)
    decreases |recs|
  {
    if recs != [] {
      SendsAreRight(c, recs[0]);
      AllSendsAreRight(Dispatched(c, recs[0]), recs[1..]);
    }
  }

  /** The reset era a channel is in after these records: how often its Reset Count
      changed. `last` is the count its last record carried, if there was one. */
  function Era(last: Option<nat>, recs: seq<Record>, ch: nat): nat
    decreases |recs|
  {
    if recs == [] then 0
    else if recs[0].ch != ch then Era(last, recs[1..], ch)
    else (if last.Some? && last.value != recs[0].resetCount then 1 else 0)
         + Era(Some(recs[0].resetCount), recs[1..], ch)
  }

  function Wipes(inbox: seq<Message>, ch: nat): nat {
    if inbox == [] then 0 else (if inbox[0] == Wipe(ch) then 1 else 0) + Wipes(inbox[1..], ch)
  }

  lemma {:induction false} WipesBoth(a: seq<Message>, b: seq<Message>, ch: nat)
    ensures Wipes(a + b, ch) == Wipes(a, ch) + Wipes(b, ch)
  {
    if a == [] {
      assert a + b == b;
    } else {
      assert (a + b)[1..] == a[1..] + b;
      WipesBoth(a[1..], b, ch);
    }
  }

  function LastCount(c: Coordinator, ch: nat): Option<nat> {
    if ch in c.resetCount then Some(c.resetCount[ch]) else None
  }

  lemma SendsNoWipe(c: Coordinator, rec: Record, i: nat, ch: nat)
    requires c.shards > 0
    ensures Wipes(Project(Sends(c, rec), i), ch) == 0
  {
    var sends := Sends(c, rec);
    if sends != [] {
      assert sends == [sends[0]];
      ProjectOne(sends[0], i);
      assert [sends[0].message][1..] == [];
    }
  }

  /** One dispatch: a wipe of its channel goes first exactly when the Reset Count
      changed, to every shard, ahead of the record. */
  lemma OneWipe(c: Coordinator, rec: Record, i: nat, ch: nat)
    requires c.shards > 0
    ensures var inbox := Project(DispatchSends(c, rec), i);
            && Wipes(inbox, ch) == Era(LastCount(c, ch), [rec], ch)
            && (NeedsBarrier(c, rec) ==> inbox != [] && inbox[0] == Wipe(rec.ch) && Wipes(inbox[1..], ch) == 0)
  {
    assert [rec][1..] == [];
    if NeedsBarrier(c, rec) {
      var tail := Sends(AfterBarrier(c, rec), rec);
      SendsNoWipe(AfterBarrier(c, rec), rec, i, ch);
      ProjectBoth([ToAll(Wipe(rec.ch))], tail, i);
      ProjectOne(ToAll(Wipe(rec.ch)), i);
      assert ([Wipe(rec.ch)] + Project(tail, i))[1..] == Project(tail, i);
    } else {
      SendsNoWipe(c, rec, i, ch);
    }
  }

  lemma CountFollows(c: Coordinator, rec: Record, ch: nat)
    requires c.shards > 0
    ensures LastCount(Dispatched(c, rec), ch) == if rec.ch == ch then Some(rec.resetCount) else LastCount(c, ch)
  {
  }

  /** In every shard's inbox, the wipes of a channel ahead of any record are as many
      as its Reset Count changes up to that record: each wipe falls exactly between
      the last record of the old era and the first of the new. */
  lemma {:induction false} WipesMarkEras(c: Coordinator, recs: seq<Record>, i: nat, ch: nat)
    requires c.shards > 0
    ensures Wipes(Project(AllSends(c, recs), i), ch) == Era(LastCount(c, ch), recs, ch)
    decreases |recs|
  {
    if recs != [] {
      var rec, rest := recs[0], recs[1..];
      OneWipe(c, rec, i, ch);
      CountFollows(c, rec, ch);
      WipesMarkEras(Dispatched(c, rec), rest, i, ch);
      ProjectBoth(DispatchSends(c, rec), AllSends(Dispatched(c, rec), rest), i);
      WipesBoth(Project(DispatchSends(c, rec), i), Project(AllSends(Dispatched(c, rec), rest), i), ch);
      assert [rec][1..] == [];
    }
  }

  /** A wipe takes everything of its channel and nothing of any other. */
  lemma WipeIsOneChannel(s: Shard, ch: nat, k: Key)
    ensures k.ch == ch ==> AgreeAt(HandleWipe(s, ch), NewShard(0), k)
    ensures k.ch != ch ==> AgreeAt(HandleWipe(s, ch), s, k)
  {
  }
}
