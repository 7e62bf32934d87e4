/** The crossed-book index agrees with recomputation, in both evaluation modes. */
module CrossedIndex {
  import opened Book
  import opened InstrumentSpec
  import opened ShardSpec
  import opened ShardInvariant

  /** Untouched since the last evaluation, an instrument is in the index exactly
      when its current book is crossed. A missing instrument has no book. */
  ghost predicate IndexedAt(s: Shard, k: Key) {
    k !in s.touched ==> (k in s.crossed <==> s.InstFor(k).book.Crossed())
  }

  ghost predicate Indexed(s: Shard) {
    s.touched <= s.insts.Keys && forall k :: IndexedAt(s, k)
  }

  /** Books and index are as they were, except perhaps the book of `k`. */
  ghost predicate SameBooksBut(s: Shard, t: Shard, k: Key, changed: bool) {
    && t.crossed == s.crossed && t.touched == s.touched && t.sawBoundary == s.sawBoundary
    && s.insts.Keys <= t.insts.Keys
    && (forall j :: j != k || !changed ==> t.InstFor(j).book == s.InstFor(j).book)
    && (changed ==> k in t.insts)
  }

  lemma NoteIndexed(s: Shard, t: Shard, k: Key, evs: seq<Event>)
    requires Indexed(s) && SameBooksBut(s, t, k, ChangesBook(evs))
    ensures Indexed(Note(t, k, evs))
  {
    forall j ensures IndexedAt(Note(t, k, evs), j) {
      assert IndexedAt(s, j);
    }
  }

  lemma AgedBooks(s: Shard, u: Shard, t: Shard, k: Key, changed: bool)
    requires SameBooksBut(s, u, k, changed) && OnlyAged(u, t)
    ensures SameBooksBut(s, t, k, changed)
  {
    forall j ensures t.InstFor(j).book == u.InstFor(j).book {
      assert j in t.insts ==> Aged(u.InstFor(j), t.insts[j]);
    }
  }

  lemma PutBooks(s: Shard, u: Shard, k: Key, i: Inst, changed: bool)
    requires u.insts == s.insts[k := i] && (!changed ==> i.book == s.InstFor(k).book)
    requires u.crossed == s.crossed && u.touched == s.touched && u.sawBoundary == s.sawBoundary
    ensures SameBooksBut(s, u, k, changed)
  {
  }

  lemma ClassifyBooks(s: Shard, k: Key, d: Delta, held: seq<Delta>)
    requires Core(s) && k in s.insts && s.insts[k].status == Ready
    ensures var o := Classify(s.insts[k], d, held);
            SameBooksBut(s, s.Put(k, o.inst), k, ChangesBook(o.events))
  {
    assert KeyOk(s, k);
    var o := Classify(s.insts[k], d, held);
    ClassifyOk(s.insts[k], d, held);
    PutBooks(s, s.Put(k, o.inst), k, o.inst, ChangesBook(o.events));
  }

  lemma DeltaBooks(s: Shard, k: Key, d: Delta, t: Shard, evs: seq<Event>)
    requires Core(s) && InBudget(s) && HandlesDelta(s, k, d, t, evs)
    ensures SameBooksBut(s, t, k, ChangesBook(evs))
  {
    var u, held, spill := DeltaSteps(s, k, d, t, evs);
    if k in s.insts && s.insts[k].status == Ready {
      ClassifyBooks(s, k, d, held);
    } else {
      assert !ChangesBook([]);
    }
    BuffersAllOk(u, k, spill, t);
    AgedBooks(s, u, t, k, ChangesBook(evs));
  }

  lemma EndBooks(s: Shard, k: Key, id: nat, anchor: nat, t: Shard, evs: seq<Event>)
    requires Core(s) && InBudget(s) && HandlesEnd(s, k, id, anchor, t, evs)
    ensures SameBooksBut(s, t, k, ChangesBook(evs))
  {
    if k in s.insts && Commits(s.insts[k], id, anchor) {
      var u, held, o := CommitSteps(s, k, id, anchor, t, evs);
      assert evs[0] == AppliedSnapshot(id, anchor) && evs[0] in evs;
      PutBooks(s, u, k, o.inst, true);
      BuffersAllOk(u, k, o.spill, t);
      AgedBooks(s, u, t, k, true);
    } else {
      assert !ChangesBook([]);
      if t != s {
        PutBooks(s, t, k, End(s.insts[k], id, anchor), false);
      }
    }
  }

  lemma PlainIndexed(s: Shard, k: Key, body: Body)
    requires Indexed(s)
    ensures Indexed(Plain(s, k, body))
  {
    forall j ensures IndexedAt(Plain(s, k, body), j) {
      assert IndexedAt(s, j);
      assert !EMPTY.Crossed();
    }
  }

  lemma DropIndexed(s: Shard, ks: set<Key>)
    requires Indexed(s)
    ensures Indexed(DropKeys(s, ks))
  {
    forall j ensures IndexedAt(DropKeys(s, ks), j) {
      assert IndexedAt(s, j);
      assert !EMPTY.Crossed();
    }
  }

  lemma IndexedKept(s: Shard, m: Message, s': Shard, evs: seq<Event>)
    requires Core(s) && InBudget(s) && Indexed(s) && Handles(s, m, s', evs)
    ensures Indexed(s')
  {
    match m
    case Rec(rec) =>
      var k := rec.At();
      if rec.body.BookDelta? {
        var t :| HandlesDelta(s, k, rec.AsDelta(), t, evs) && s' == Note(t, k, evs);
        DeltaBooks(s, k, rec.AsDelta(), t, evs);
        NoteIndexed(s, t, k, evs);
      } else if rec.body.SnapshotEnd? {
        var t :| HandlesEnd(s, k, rec.body.id, rec.body.anchor, t, evs) && s' == Note(t, k, evs);
        EndBooks(s, k, rec.body.id, rec.body.anchor, t, evs);
        NoteIndexed(s, t, k, evs);
      } else {
        PlainIndexed(s, k, rec.body);
      }
    case Wipe(ch) =>
      DropIndexed(s, OnChannel(s, ch));
      forall j ensures IndexedAt(s', j) {
        assert IndexedAt(DropKeys(s, OnChannel(s, ch)), j);
      }
    case Prune(seqNo) => DropIndexed(s, OutOfManifest(s, seqNo));
    case ClearShadows =>
      forall j ensures IndexedAt(s', j) {
        assert IndexedAt(s, j);
      }
    case Fence =>
  }

  // ---- whole runs ----

  /** A shard's life: any messages at all, in any order. */
  ghost predicate IsRun(states: seq<Shard>, inbox: seq<Message>, events: seq<seq<Event>>, budget: nat) {
    && |states| == |inbox| + 1 && |events| == |inbox|
    && states[0] == NewShard(budget)
    && forall n :: 0 <= n < |inbox| ==> HandlesAt(states, inbox, events, n)
  }

  ghost predicate HandlesAt(states: seq<Shard>, inbox: seq<Message>, events: seq<seq<Event>>, n: nat)
    requires n < |inbox| == |events| && |states| == |inbox| + 1
  {
    Handles(states[n], inbox[n], states[n + 1], events[n])
  }

  /** After any sequence of messages: every instrument meets the status invariant,
      no ready one has buffered deltas, the running total is the total, within
      budget, every buffer is sorted, and the crossed index is right. */
  lemma {:induction false} EveryRun(states: seq<Shard>, inbox: seq<Message>, events: seq<seq<Event>>,
                                    budget: nat, n: nat)
    requires IsRun(states, inbox, events, budget) && n < |states|
    ensures Core(states[n]) && InBudget(states[n]) && Indexed(states[n])
  {
    if n == 0 {
      forall k ensures KeyOk(states[0], k) && IndexedAt(states[0], k) {
      }
    } else {
      EveryRun(states, inbox, events, budget, n - 1);
      assert HandlesAt(states, inbox, events, n - 1);
      CoreKept(states[n - 1], inbox[n - 1], states[n], events[n - 1]);
      IndexedKept(states[n - 1], inbox[n - 1], states[n], events[n - 1]);
    }
  }

  // ---- when a book is evaluated ----

  predicate IsBoundary(m: Message) {
    m.Rec? && m.rec.body.Boundary?
  }

  /** The message applied something to the book of `k`, by the events it returned. */
  predicate AppliedAt(m: Message, evs: seq<Event>, k: Key) {
    && m.Rec? && m.rec.At() == k && (m.rec.body.BookDelta? || m.rec.body.SnapshotEnd?)
    && exists e :: e in evs && (e.AppliedDelta? || e.AppliedSnapshot?)
  }

  /** A delta or a snapshot's end before evaluation: no monitoring state moves. */
  lemma DeltaUnseen(s: Shard, k: Key, d: Delta, t: Shard, evs: seq<Event>)
    requires Core(s) && InBudget(s) && HandlesDelta(s, k, d, t, evs)
    ensures t.touched == s.touched && t.crossed == s.crossed && t.sawBoundary == s.sawBoundary
    ensures ChangesBook(evs) ==> k in t.insts
  {
    DeltaBooks(s, k, d, t, evs);
  }

  lemma EndUnseen(s: Shard, k: Key, id: nat, anchor: nat, t: Shard, evs: seq<Event>)
    requires Core(s) && InBudget(s) && HandlesEnd(s, k, id, anchor, t, evs)
    ensures t.touched == s.touched && t.crossed == s.crossed && t.sawBoundary == s.sawBoundary
    ensures ChangesBook(evs) ==> k in t.insts
  {
    EndBooks(s, k, id, anchor, t, evs);
  }

  /** On a channel that batches, an applied change marks its instrument and evaluates
      nothing. On one that does not, it evaluates that instrument's new book at once and
      marks nothing. What applies nothing does neither, and no other key is affected. */
  lemma EvaluatedOrMarked(s: Shard, m: Message, t: Shard, evs: seq<Event>, j: Key)
    requires Core(s) && InBudget(s) && Handles(s, m, t, evs)
    requires m.Rec? && (m.rec.body.BookDelta? || m.rec.body.SnapshotEnd?)
    ensures t.sawBoundary == s.sawBoundary
    ensures j in t.touched <==> j in s.touched || (s.sawBoundary && AppliedAt(m, evs, j))
    ensures j in t.crossed <==>
              if !s.sawBoundary && AppliedAt(m, evs, j)
              then t.InstFor(j).book.Crossed()
              else j in s.crossed
  {
    var rec, k := m.rec, m.rec.At();
    if rec.body.BookDelta? {
      var u :| HandlesDelta(s, k, rec.AsDelta(), u, evs) && t == Note(u, k, evs);
      DeltaUnseen(s, k, rec.AsDelta(), u, evs);
      NoteExactly(u, k, evs, t, j);
    } else {
      var u :| HandlesEnd(s, k, rec.body.id, rec.body.anchor, u, evs) && t == Note(u, k, evs);
      EndUnseen(s, k, rec.body.id, rec.body.anchor, u, evs);
      NoteExactly(u, k, evs, t, j);
    }
  }

  lemma NoteExactly(u: Shard, k: Key, evs: seq<Event>, t: Shard, j: Key)
    requires t == Note(u, k, evs) && (ChangesBook(evs) ==> k in u.insts)
    ensures t.sawBoundary == u.sawBoundary && t.insts == u.insts
    ensures j in t.touched <==> j in u.touched || (u.sawBoundary && j == k && ChangesBook(evs))
    ensures j in t.crossed <==>
              if !u.sawBoundary && j == k && ChangesBook(evs) then u.InstFor(j).book.Crossed() else j in u.crossed
  {
  }

  /** A boundary evaluates whatever was marked and leaves nothing marked. */
  lemma BoundaryEvaluates(s: Shard, m: Message, t: Shard, evs: seq<Event>, j: Key)
    requires Indexed(s) && IsBoundary(m) && Handles(s, m, t, evs)
    ensures t.sawBoundary && t.touched == {}
    ensures j in t.crossed <==> t.InstFor(j).book.Crossed()
  {
    assert IndexedAt(s, j);
  }

  /** Nothing but an applied change on a batching channel marks a key. */
  lemma OnlyBatchingMarks(s: Shard, m: Message, t: Shard, evs: seq<Event>, j: Key)
    requires Core(s) && InBudget(s) && Handles(s, m, t, evs) && j in t.touched && j !in s.touched
    ensures s.sawBoundary && AppliedAt(m, evs, j)
  {
    if m.Rec? && (m.rec.body.BookDelta? || m.rec.body.SnapshotEnd?) {
      EvaluatedOrMarked(s, m, t, evs, j);
    } else {
      OthersMarkNothing(s, m, t, evs);
    }
  }

  lemma OthersMarkNothing(s: Shard, m: Message, t: Shard, evs: seq<Event>)
    requires Handles(s, m, t, evs) && !(m.Rec? && (m.rec.body.BookDelta? || m.rec.body.SnapshotEnd?))
    ensures t.touched <= s.touched
    ensures t.sawBoundary <==> IsBoundary(m) || (s.sawBoundary && !m.Wipe?)
  {
    if m.Rec? {
      PlainMarksNothing(s, m.rec.At(), m.rec.body);
    }
  }

  lemma PlainMarksNothing(s: Shard, k: Key, body: Body)
    ensures Plain(s, k, body).touched <= s.touched
    ensures Plain(s, k, body).sawBoundary <==> body.Boundary? || s.sawBoundary
  {
  }

  lemma BatchingStep(s: Shard, m: Message, t: Shard, evs: seq<Event>)
    requires Core(s) && InBudget(s) && Handles(s, m, t, evs)
    ensures t.sawBoundary <==> IsBoundary(m) || (s.sawBoundary && !m.Wipe?)
  {
    if m.Rec? && (m.rec.body.BookDelta? || m.rec.body.SnapshotEnd?) {
      EvaluatedOrMarked(s, m, t, evs, m.rec.At());
    } else {
      OthersMarkNothing(s, m, t, evs);
    }
  }

  /** Message `j` is the last to say whether the channel batches: a boundary says so, a
      wipe forgets it. */
  predicate LastMode(inbox: seq<Message>, j: nat, n: nat) {
    && j < n <= |inbox| && (IsBoundary(inbox[j]) || inbox[j].Wipe?)
    && forall i :: j < i < n ==> !IsBoundary(inbox[i]) && !inbox[i].Wipe?
  }

  /** Over any run, a shard batches exactly when a boundary came since the last wipe. */
  lemma {:induction false} BatchingSinceBoundary(states: seq<Shard>, inbox: seq<Message>, events: seq<seq<Event>>,
                                                 budget: nat, n: nat)
    requires IsRun(states, inbox, events, budget) && n <= |inbox|
    ensures states[n].sawBoundary <==> exists j: nat :: LastMode(inbox, j, n) && IsBoundary(inbox[j])
  {
    if n > 0 {
      BatchingSinceBoundary(states, inbox, events, budget, n - 1);
      EveryRun(states, inbox, events, budget, n - 1);
      assert HandlesAt(states, inbox, events, n - 1);
      var m := inbox[n - 1];
      BatchingStep(states[n - 1], m, states[n], events[n - 1]);
      if IsBoundary(m) {
        assert LastMode(inbox, n - 1, n);
      } else if !m.Wipe? {
        if j: nat :| LastMode(inbox, j, n - 1) && IsBoundary(inbox[j]) {
          assert LastMode(inbox, j, n);
        }
        if j: nat :| LastMode(inbox, j, n) && IsBoundary(inbox[j]) {
          assert LastMode(inbox, j, n - 1);
        }
      }
    }
  }

  /** While no boundary has been handled nothing is marked, and the index is exactly the
      instruments whose book is crossed now. */
  lemma {:induction false} IndexIsExactBeforeBoundaries(states: seq<Shard>, inbox: seq<Message>, events: seq<seq<Event>>,
                                                        budget: nat, n: nat)
    requires IsRun(states, inbox, events, budget) && n <= |inbox|
    requires forall j :: 0 <= j < n ==> !IsBoundary(inbox[j])
    ensures states[n].touched == {} && !states[n].sawBoundary
    ensures forall k :: k in states[n].crossed <==> states[n].InstFor(k).book.Crossed()
  {
    NothingMarked(states, inbox, events, budget, n);
    EveryRun(states, inbox, events, budget, n);
    forall k ensures k in states[n].crossed <==> states[n].InstFor(k).book.Crossed() {
      assert IndexedAt(states[n], k);
    }
  }

  lemma {:induction false} NothingMarked(states: seq<Shard>, inbox: seq<Message>, events: seq<seq<Event>>, budget: nat, n: nat)
    requires IsRun(states, inbox, events, budget) && n <= |inbox|
    requires forall j :: 0 <= j < n ==> !IsBoundary(inbox[j])
    ensures states[n].touched == {} && !states[n].sawBoundary
  {
    if n > 0 {
      NothingMarked(states, inbox, events, budget, n - 1);
      EveryRun(states, inbox, events, budget, n - 1);
      assert HandlesAt(states, inbox, events, n - 1);
      BatchingStep(states[n - 1], inbox[n - 1], states[n], events[n - 1]);
      forall k ensures k !in states[n].touched {
        if k in states[n].touched {
          OnlyBatchingMarks(states[n - 1], inbox[n - 1], states[n], events[n - 1], k);
        }
      }
    }
  }

  /** The overflow policy never touches a ready book: a buffer that can be evicted
      belongs to an instrument that is not serving. */
  lemma EvictionSparesReady(s: Shard, v: Key)
    requires Core(s) && IsLargest(s.bufs, v)
    ensures s.InstFor(v).status != Ready
    ensures forall k :: k in s.insts && s.insts[k].status == Ready ==>
              Evict(s, v).insts[k] == s.insts[k]
  {
    assert KeyOk(s, v);
  }
}
