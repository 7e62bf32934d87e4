/** The events a shard returns are a faithful log: a consumer that folds them holds
    the live book. */
module EventLog {
  import opened Wrappers
  import opened Book
  import opened InstrumentSpec
  import opened ShardSpec
  import opened ShardInvariant
  import CrossedIndex

  /** A consumer's copy of one book, and the Per-Instrument Seq it has reached. */
  datatype Copy = Copy(book: Book, seqNo: nat)

  /** An applied delta has to be the next one, or the copy is lost. Only the three
      kinds that assert a book change move the copy. */
  function FeedOne(c: Option<Copy>, e: Event, snapshot: Copy): Option<Copy> {
    match e
    case AppliedSnapshot(_, _) => Some(snapshot)
    case AppliedDelta(d) =>
      if c.Some? && d.piSeq == c.value.seqNo + 1
      then Some(Copy(Apply(c.value.book, d.change), d.piSeq)) else None
    case InstrumentReset(_) => None
    case _ => c
  }

  function Feed(c: Option<Copy>, evs: seq<Event>, snapshot: Copy): Option<Copy>
    decreases |evs|
  {
    if evs == [] then c else Feed(FeedOne(c, evs[0], snapshot), evs[1..], snapshot)
  }

  lemma {:induction false} FeedBoth(c: Option<Copy>, a: seq<Event>, b: seq<Event>, snapshot: Copy)
    ensures Feed(c, a + b, snapshot) == Feed(Feed(c, a, snapshot), b, snapshot)
    decreases |a|
  {
    if a == [] {
      assert a + b == b;
    } else {
      assert (a + b)[1..] == a[1..] + b;
      FeedBoth(FeedOne(c, a[0], snapshot), a[1..], b, snapshot);
    }
  }

  // ---- snapshots off the wire ----

  /** The group whose begin an instrument took last, and the level records it was
      handed under that id since. */
  datatype Wired = Wired(header: GroupHeader, levels: seq<SnapLevel>)

  /** The group on the wire after one message. The shard's shadow plays no part. */
  function Collected(w: Option<Wired>, s: Shard, m: Message, k: Key): Option<Wired> {
    if !m.Rec? || m.rec.At() != k then w
    else
      match m.rec.body
      case SnapshotBegin(h) =>
        if Judge(s.InstFor(k), h.anchor, h.last) == Accepted then Some(Wired(h, [])) else w
      case SnapshotLevel(id, l) =>
        if w.Some? && w.value.header.id == id then Some(w.value.(levels := w.value.levels + [l])) else w
      case _ => w
  }

  /** What an applied_snapshot means to a consumer: the book of the levels it saw. */
  ghost function AsCopy(w: Option<Wired>): Copy {
    if w.Some? then Copy(BookOf(w.value.levels), w.value.header.last) else Copy(EMPTY, 0)
  }

  /** A shadow is what came over the wire. */
  ghost predicate Backed(w: Option<Wired>, i: Inst) {
    i.shadow.Some? ==>
      w.Some? && i.shadow.value == Shadow(w.value.header, |w.value.levels|, BookOf(w.value.levels))
  }

  ghost predicate Means(snapshot: Copy, i: Inst) {
    i.shadow.Some? ==> snapshot == Copy(i.shadow.value.book, i.shadow.value.header.last)
  }

  lemma BegunBacked(i: Inst, h: GroupHeader, w: Option<Wired>)
    requires Backed(w, i)
    ensures Backed(if Judge(i, h.anchor, h.last) == Accepted then Some(Wired(h, [])) else w, Begin(i, h))
  {
  }

  lemma LeveledBacked(i: Inst, id: nat, l: SnapLevel, w: Option<Wired>)
    requires Backed(w, i)
    ensures Backed(if w.Some? && w.value.header.id == id then Some(w.value.(levels := w.value.levels + [l])) else w,
                   InstrumentSpec.Level(i, id, l))
  {
    if w.Some? {
      var all := w.value.levels + [l];
      assert all[..|all| - 1] == w.value.levels;
    }
  }

  /** Buffering leaves every shadow alone. */
  lemma SpillShadow(u: Shard, j: Key, ds: seq<Delta>, t: Shard, k: Key)
    requires Core(u) && InBudget(u) && (ds != [] && j in u.insts ==> u.insts[j].status != Ready)
    requires BuffersAll(u, j, ds, t)
    ensures t.InstFor(k).shadow == u.InstFor(k).shadow
  {
    BuffersAllOk(u, j, ds, t);
    assert k in t.insts ==> Aged(u.InstFor(k), t.insts[k]);
  }

  /** Deltas leave every shadow alone. */
  lemma DeltaShadow(s: Shard, j: Key, d: Delta, t: Shard, evs: seq<Event>, k: Key)
    requires Core(s) && InBudget(s) && HandlesDelta(s, j, d, t, evs)
    ensures t.InstFor(k).shadow == s.InstFor(k).shadow
  {
    var u, held, spill := DeltaSteps(s, j, d, t, evs);
    SpillShadow(u, j, spill, t, k);
    if j in s.insts && s.insts[j].status == Ready {
      assert KeyOk(s, j);
      ClassifyOk(s.insts[j], d, held);
    }
  }

  /** An end drops a shadow or leaves it; it builds none. */
  lemma EndShadows(s: Shard, j: Key, id: nat, anchor: nat, t: Shard, evs: seq<Event>, k: Key)
    requires Core(s) && InBudget(s) && HandlesEnd(s, j, id, anchor, t, evs)
    ensures t.InstFor(k).shadow.Some? ==> t.InstFor(k).shadow == s.InstFor(k).shadow
  {
    if j in s.insts && Commits(s.insts[j], id, anchor) {
      CommitShadows(s, j, id, anchor, t, evs, k);
    } else {
      DropShadows(s, j, id, anchor, t, evs, k);
    }
  }

  lemma CommitShadows(s: Shard, j: Key, id: nat, anchor: nat, t: Shard, evs: seq<Event>, k: Key)
    requires Core(s) && InBudget(s) && HandlesEnd(s, j, id, anchor, t, evs)
    requires j in s.insts && Commits(s.insts[j], id, anchor)
    ensures t.InstFor(k).shadow == if k == j then None else s.InstFor(k).shadow
  {
    var u, held, o := CommitSteps(s, j, id, anchor, t, evs);
    SpillShadow(u, j, o.spill, t, k);
    assert KeyOk(s, j);
    EndOk(s.insts[j], id, anchor);
    ReplayShadow(Commit(s.insts[j]), s.Buf(j), held);
  }

  lemma DropShadows(s: Shard, j: Key, id: nat, anchor: nat, t: Shard, evs: seq<Event>, k: Key)
    requires HandlesEnd(s, j, id, anchor, t, evs) && !(j in s.insts && Commits(s.insts[j], id, anchor))
    ensures t.InstFor(k).shadow.Some? ==> t.InstFor(k).shadow == s.InstFor(k).shadow
  {
  }

  /** A plain record that is no begin and no level of `k` builds it no shadow. */
  lemma PlainShadow(s: Shard, j: Key, body: Body, k: Key)
    requires j != k || !(body.SnapshotBegin? || body.SnapshotLevel?)
    ensures Plain(s, j, body).InstFor(k).shadow.Some? ==> Plain(s, j, body).InstFor(k).shadow == s.InstFor(k).shadow
  {
  }

  lemma PlainBacked(s: Shard, rec: Record, k: Key, w: Option<Wired>)
    requires Backed(w, s.InstFor(k)) && !rec.body.BookDelta? && !rec.body.SnapshotEnd?
    ensures Backed(Collected(w, s, Rec(rec), k), Plain(s, rec.At(), rec.body).InstFor(k))
  {
    if rec.At() == k && rec.body.SnapshotBegin? {
      BegunBacked(s.InstFor(k), rec.body.header, w);
    } else if rec.At() == k && rec.body.SnapshotLevel? {
      LeveledBacked(s.InstFor(k), rec.body.id, rec.body.level, w);
    } else {
      PlainShadow(s, rec.At(), rec.body, k);
    }
  }

  lemma MessageBacked(s: Shard, m: Message, t: Shard, evs: seq<Event>, k: Key, w: Option<Wired>)
    requires Core(s) && InBudget(s) && Handles(s, m, t, evs) && Backed(w, s.InstFor(k))
    ensures Backed(Collected(w, s, m, k), t.InstFor(k))
  {
    if m.Rec? {
      var rec, j := m.rec, m.rec.At();
      match rec.body
      case BookDelta(_, _) =>
        var u :| HandlesDelta(s, j, rec.AsDelta(), u, evs) && t == Note(u, j, evs);
        DeltaShadow(s, j, rec.AsDelta(), u, evs, k);
      case SnapshotEnd(id, anchor) =>
        var u :| HandlesEnd(s, j, id, anchor, u, evs) && t == Note(u, j, evs);
        EndShadows(s, j, id, anchor, u, evs, k);
      case _ => PlainBacked(s, rec, k, w);
    }
  }

  // ---- one instrument ----

  ghost predicate Mirrors(c: Option<Copy>, i: Inst) {
    i.depthBound.Some? ==> c == Some(Copy(i.book, i.lastSeq))
  }

  lemma {:induction false} DrainFeeds(i: Inst, snapshot: Copy)
    requires Windowed(i) && i.lost == {}
    ensures Feed(Some(Copy(i.book, i.lastSeq)), Applied(DrainRun(i)), snapshot)
         == Some(Copy(Drain(i).book, Drain(i).lastSeq))
    decreases i.pending.Keys
  {
    if i.lastSeq + 1 in i.pending {
      DrainStepOk(i);
      var j, d := DrainStep(i), i.pending[i.lastSeq + 1];
      DrainFeeds(j, snapshot);
      assert DrainRun(i) == [d] + DrainRun(j);
      assert Applied(DrainRun(i)) == [AppliedDelta(d)] + Applied(DrainRun(j));
    }
  }

  lemma ClassifyFeeds(i: Inst, d: Delta, held: seq<Delta>, c: Option<Copy>, snapshot: Copy)
    requires InstOk(i) && i.status == Ready && Mirrors(c, i)
    ensures Mirrors(Feed(c, Classify(i, d, held).events, snapshot), Classify(i, d, held).inst)
  {
    ReadyExpectsNext(i);
    if d.piSeq == i.lastSeq + 1 && !Malformed(d.change) {
      ContiguousOk(i, d, held);
      var j := ApplyOne(i, d);
      DrainFeeds(j, snapshot);
      assert Applied([d] + DrainRun(j)) == [AppliedDelta(d)] + Applied(DrainRun(j));
    }
  }

  lemma {:induction false} ReplayFeeds(i: Inst, buf: seq<Delta>, held: seq<Delta>, c: Option<Copy>, snapshot: Copy)
    requires InstOk(i) && Mirrors(c, i)
    ensures Mirrors(Feed(c, Replay(i, buf, held).events, snapshot), Replay(i, buf, held).inst)
    decreases |buf|
  {
    if buf != [] {
      if buf[0].mseq <= i.lastMkt || i.status != Ready {
        ReplayFeeds(i, buf[1..], held, c, snapshot);
      } else {
        var o := Classify(i, buf[0], held);
        ClassifyOk(i, buf[0], held);
        ClassifyFeeds(i, buf[0], held, c, snapshot);
        ReplayFeeds(o.inst, buf[1..], held, Feed(c, o.events, snapshot), snapshot);
        FeedBoth(c, o.events, Replay(o.inst, buf[1..], held).events, snapshot);
      }
    }
  }

  lemma AgedMirrors(s: Shard, t: Shard, k: Key, c: Option<Copy>)
    requires OnlyAged(s, t) && Mirrors(c, s.InstFor(k))
    ensures Mirrors(c, t.InstFor(k))
  {
    assert k in t.insts ==> Aged(s.InstFor(k), t.insts[k]);
  }

  /** The copy of `k` after one message's events. */
  function Heard(c: Option<Copy>, m: Message, evs: seq<Event>, k: Key, snapshot: Copy): Option<Copy> {
    if m.Rec? && m.rec.At() == k then Feed(c, evs, snapshot) else c
  }

  lemma DeltaMirrored(s: Shard, j: Key, d: Delta, t: Shard, evs: seq<Event>, k: Key, c: Option<Copy>, snapshot: Copy)
    requires Core(s) && InBudget(s) && HandlesDelta(s, j, d, t, evs) && Mirrors(c, s.InstFor(k))
    ensures Mirrors(if j == k then Feed(c, evs, snapshot) else c, t.InstFor(k))
  {
    var u, held, spill := DeltaSteps(s, j, d, t, evs);
    assert KeyOk(s, j);
    var c' := if j == k then Feed(c, evs, snapshot) else c;
    if j in s.insts && s.insts[j].status == Ready && j == k {
      ClassifyFeeds(s.insts[j], d, held, c, snapshot);
    }
    BuffersAllOk(u, j, spill, t);
    AgedMirrors(u, t, k, c');
  }

  lemma CommitMirrored(s: Shard, j: Key, id: nat, anchor: nat, t: Shard, evs: seq<Event>, k: Key, c: Option<Copy>, snapshot: Copy)
    requires Core(s) && InBudget(s) && HandlesEnd(s, j, id, anchor, t, evs) && Mirrors(c, s.InstFor(k)) && Means(snapshot, s.InstFor(k))
    requires j in s.insts && Commits(s.insts[j], id, anchor)
    ensures Mirrors(if j == k then Feed(c, evs, snapshot) else c, t.InstFor(k))
  {
    var u, held, o := CommitSteps(s, j, id, anchor, t, evs);
    assert KeyOk(s, j);
    var c' := c;
    if j == k {
      EndOk(s.insts[j], id, anchor);
      var first := Some(snapshot);
      ReplayFeeds(Commit(s.insts[j]), s.Buf(j), held, first, snapshot);
      assert evs[0] == AppliedSnapshot(id, anchor) && evs[1..] == o.events;
      c' := Feed(c, evs, snapshot);
    }
    BuffersAllOk(u, j, o.spill, t);
    AgedMirrors(u, t, k, c');
  }

  /** The plain records leave books and trackers alone, but for a reset's own. */
  lemma PlainKeeps(s: Shard, j: Key, body: Body, k: Key)
    requires !(body.ResetBook? && j == k)
    ensures var i, i' := s.InstFor(k), Plain(s, j, body).InstFor(k);
            i'.book == i.book && i'.lastSeq == i.lastSeq && i'.depthBound == i.depthBound
  {
  }

  lemma FeedPlain(c: Option<Copy>, body: Body, snapshot: Copy)
    requires !body.ResetBook?
    ensures Feed(c, PlainEvents(body), snapshot) == c
  {
    var evs := PlainEvents(body);
    assert evs == [] || (evs[1..] == [] && FeedOne(c, evs[0], snapshot) == c);
  }

  lemma PlainMirrored(s: Shard, rec: Record, k: Key, c: Option<Copy>, snapshot: Copy)
    requires Mirrors(c, s.InstFor(k)) && !rec.body.BookDelta? && !rec.body.SnapshotEnd?
    ensures Mirrors(Heard(c, Rec(rec), PlainEvents(rec.body), k, snapshot), Plain(s, rec.At(), rec.body).InstFor(k))
  {
    if !(rec.body.ResetBook? && rec.At() == k) {
      PlainKeeps(s, rec.At(), rec.body, k);
      if !rec.body.ResetBook? {
        FeedPlain(c, rec.body, snapshot);
      }
    }
  }

  lemma EndMirrored(s: Shard, j: Key, id: nat, anchor: nat, t: Shard, evs: seq<Event>, k: Key, c: Option<Copy>, snapshot: Copy)
    requires Core(s) && InBudget(s) && HandlesEnd(s, j, id, anchor, t, evs) && Mirrors(c, s.InstFor(k)) && Means(snapshot, s.InstFor(k))
    ensures Mirrors(if j == k then Feed(c, evs, snapshot) else c, t.InstFor(k))
  {
    if j in s.insts && Commits(s.insts[j], id, anchor) {
      CommitMirrored(s, j, id, anchor, t, evs, k, c, snapshot);
    }
  }

  lemma RecordMirrored(s: Shard, rec: Record, t: Shard, evs: seq<Event>, k: Key, c: Option<Copy>, snapshot: Copy)
    requires Core(s) && InBudget(s) && HandlesRecord(s, rec.At(), rec, t, evs) && Mirrors(c, s.InstFor(k)) && Means(snapshot, s.InstFor(k))
    ensures Mirrors(Heard(c, Rec(rec), evs, k, snapshot), t.InstFor(k))
  {
    var j := rec.At();
    if rec.body.BookDelta? {
      var u :| HandlesDelta(s, j, rec.AsDelta(), u, evs) && t == Note(u, j, evs);
      DeltaMirrored(s, j, rec.AsDelta(), u, evs, k, c, snapshot);
      assert t.insts == u.insts;
    } else if rec.body.SnapshotEnd? {
      var u :| HandlesEnd(s, j, rec.body.id, rec.body.anchor, u, evs) && t == Note(u, j, evs);
      EndMirrored(s, j, rec.body.id, rec.body.anchor, u, evs, k, c, snapshot);
      assert t.insts == u.insts;
    } else {
      PlainMirrored(s, rec, k, c, snapshot);
    }
  }

  lemma MessageMirrored(s: Shard, m: Message, t: Shard, evs: seq<Event>, k: Key, c: Option<Copy>, snapshot: Copy)
    requires Core(s) && InBudget(s) && Handles(s, m, t, evs) && Mirrors(c, s.InstFor(k)) && Means(snapshot, s.InstFor(k))
    ensures Mirrors(Heard(c, m, evs, k, snapshot), t.InstFor(k))
  {
    if m.Rec? {
      RecordMirrored(s, m.rec, t, evs, k, c, snapshot);
    }
  }

  /** The group a consumer has seen on the wire for one instrument. */
  ghost function WireAfter(states: seq<Shard>, inbox: seq<Message>, k: Key, n: nat): Option<Wired>
    requires n <= |inbox| && |states| == |inbox| + 1
  {
    if n == 0 then None else Collected(WireAfter(states, inbox, k, n - 1), states[n - 1], inbox[n - 1], k)
  }

  /** The copy a consumer of one instrument's events holds after `n` messages: what it
      reads into an applied_snapshot are the levels it saw. */
  ghost function CopyAfter(states: seq<Shard>, inbox: seq<Message>, events: seq<seq<Event>>, k: Key, n: nat): Option<Copy>
    requires n <= |inbox| == |events| && |states| == |inbox| + 1
  {
    if n == 0 then None
    else Heard(CopyAfter(states, inbox, events, k, n - 1), inbox[n - 1], events[n - 1], k,
               AsCopy(WireAfter(states, inbox, k, n - 1)))
  }

  /** Over any run, an instrument's shadow is the level records handed to it since the
      begin it took, each once and in order. */
  lemma {:induction false} ShadowIsTheWire(states: seq<Shard>, inbox: seq<Message>, events: seq<seq<Event>>,
                                           budget: nat, k: Key, n: nat)
    requires CrossedIndex.IsRun(states, inbox, events, budget) && n <= |inbox|
    ensures Backed(WireAfter(states, inbox, k, n), states[n].InstFor(k))
  {
    if n > 0 {
      ShadowIsTheWire(states, inbox, events, budget, k, n - 1);
      CrossedIndex.EveryRun(states, inbox, events, budget, n - 1);
      assert CrossedIndex.HandlesAt(states, inbox, events, n - 1);
      MessageBacked(states[n - 1], inbox[n - 1], states[n], events[n - 1], k, WireAfter(states, inbox, k, n - 1));
    }
  }

  /** Over any run, the fold of the returned events is the live book of every
      instrument that has had a snapshot: an applied_snapshot stands for the level
      records handled for it, applied deltas are contiguous, and gap and malformed
      events change nothing. */
  lemma {:induction false} LogIsFaithful(states: seq<Shard>, inbox: seq<Message>, events: seq<seq<Event>>,
                                         budget: nat, k: Key, n: nat)
    requires CrossedIndex.IsRun(states, inbox, events, budget) && n <= |inbox|
    ensures k in states[n].insts && states[n].insts[k].depthBound.Some? ==>
              CopyAfter(states, inbox, events, k, n)
              == Some(Copy(states[n].insts[k].book, states[n].insts[k].lastSeq))
  {
    MirrorsRun(states, inbox, events, budget, k, n);
  }

  lemma {:induction false} MirrorsRun(states: seq<Shard>, inbox: seq<Message>, events: seq<seq<Event>>,
                                      budget: nat, k: Key, n: nat)
    requires CrossedIndex.IsRun(states, inbox, events, budget) && n <= |inbox|
    ensures Mirrors(CopyAfter(states, inbox, events, k, n), states[n].InstFor(k))
  {
    if n > 0 {
      MirrorsRun(states, inbox, events, budget, k, n - 1);
      ShadowIsTheWire(states, inbox, events, budget, k, n - 1);
      CrossedIndex.EveryRun(states, inbox, events, budget, n - 1);
      assert CrossedIndex.HandlesAt(states, inbox, events, n - 1);
      MessageMirrored(states[n - 1], inbox[n - 1], states[n], events[n - 1], k,
                      CopyAfter(states, inbox, events, k, n - 1), AsCopy(WireAfter(states, inbox, k, n - 1)));
    }
  }
}
