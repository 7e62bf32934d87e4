/** The reorder window over whole arrival orders. */
module ReorderWindow {
  import opened Book
  import opened InstrumentSpec
  import opened ShardInvariant
  import opened Publisher
  import opened SeriesSafety

  /** Well-formed deltas arriving in this order, until a gap is declared. */
  ghost function Receive(i: Inst, ds: seq<Delta>): Inst
    decreases |ds|
  {
    if ds == [] || i.status != Ready then i else Receive(Classify(i, ds[0], []).inst, ds[1..])
  }

  /** The first seq after `n` that has not been seen: a property of what has arrived,
      not of the order it arrived in. */
  function FirstMissing(n: nat, seen: set<nat>): nat {
    SkipLost(n + 1, seen)
  }

  lemma {:induction false} SkipLostIs(from: nat, lost: set<nat>, r: nat)
    requires from <= r && r !in lost && forall x :: from <= x < r ==> x in lost
    ensures SkipLost(from, lost) == r
    decreases r - from
  {
    if from < r {
      assert forall x :: from + 1 <= x < r ==> x in lost - {from};
      SkipLostIs(from + 1, lost - {from}, r);
    }
  }

  lemma {:induction false} SkipLostAll(from: nat, lost: set<nat>, x: nat)
    requires from <= x < SkipLost(from, lost)
    ensures x in lost
    decreases lost
  {
    if x != from {
      SkipLostAll(from + 1, lost - {from}, x);
    }
  }

  /** No delta arrives more than the window's width ahead of the first seq missing at
      that moment. */
  predicate InWindow(n: nat, seen: set<nat>, ds: seq<Delta>)
    decreases |ds|
  {
    ds == [] ||
    (ds[0].piSeq <= FirstMissing(n, seen) + REORDER_WINDOW &&
     InWindow(n, seen + {ds[0].piSeq}, ds[1..]))
  }

  /** The instrument holds exactly what has been seen: everything below the first
      missing seq applied, everything above it in the window. */
  ghost predicate Tracks(i: Inst, n: nat, seen: set<nat>) {
    && i.status == Ready && InstOk(i) && n <= i.lastSeq
    && i.lastSeq + 1 == FirstMissing(n, seen)
    && (forall s :: s in i.pending <==> s in seen && s > i.lastSeq)
  }

  lemma StillMissing(n: nat, seen: set<nat>, s: nat)
    requires s != FirstMissing(n, seen)
    ensures FirstMissing(n, seen + {s}) == FirstMissing(n, seen)
  {
    var r := FirstMissing(n, seen);
    forall x | n + 1 <= x < r ensures x in seen + {s} {
      SkipLostAll(n + 1, seen, x);
    }
    SkipLostIs(n + 1, seen + {s}, r);
  }

  /** A delta ahead of the expected one waits, or declares the gap. */
  lemma AheadOutcome(i: Inst, d: Delta)
    requires i.status == Ready && InstOk(i) && d.piSeq > i.lastSeq + 1 && !Malformed(d.change)
    ensures var j := Classify(i, d, []).inst;
            if d.piSeq <= i.lastSeq + 1 + REORDER_WINDOW
            then j == i.(pending := i.pending[d.piSeq := d]) && InstOk(j) else j.status == Gap
  {
    ReadyExpectsNext(i);
    if d.piSeq <= i.lastSeq + 1 + REORDER_WINDOW {
      WindowCount(i, i.pending[d.piSeq := d]);
    }
  }

  lemma TracksAhead(i: Inst, d: Delta, n: nat, seen: set<nat>)
    requires Tracks(i, n, seen) && d.piSeq > i.lastSeq + 1 && !Malformed(d.change)
    ensures var j := Classify(i, d, []).inst;
            if d.piSeq <= i.lastSeq + 1 + REORDER_WINDOW then Tracks(j, n, seen + {d.piSeq})
            else j.status == Gap
  {
    AheadOutcome(i, d);
    StillMissing(n, seen, d.piSeq);
  }

  lemma TracksNext(i: Inst, d: Delta, n: nat, seen: set<nat>)
    requires Tracks(i, n, seen) && d.piSeq == i.lastSeq + 1 && !Malformed(d.change)
    ensures Tracks(Classify(i, d, []).inst, n, seen + {d.piSeq})
  {
    ContiguousOk(i, d, []);
    var m := ApplyOne(i, d);
    var j := Classify(i, d, []).inst;
    assert DrainedTo(m, j) && m.pending == i.pending;
    forall x | n + 1 <= x < j.lastSeq + 1 ensures x in seen + {d.piSeq} {
      if x < i.lastSeq + 1 {
        SkipLostAll(n + 1, seen, x);
      }
    }
    SkipLostIs(n + 1, seen + {d.piSeq}, j.lastSeq + 1);
  }

  lemma TracksStep(i: Inst, d: Delta, n: nat, seen: set<nat>)
    requires Tracks(i, n, seen) && !Malformed(d.change)
    ensures var j := Classify(i, d, []).inst;
            if d.piSeq <= FirstMissing(n, seen) + REORDER_WINDOW then Tracks(j, n, seen + {d.piSeq})
            else j.status == Gap
  {
    ReadyExpectsNext(i);
    if d.piSeq <= i.lastSeq {
      StillMissing(n, seen, d.piSeq);
    } else if d.piSeq == i.lastSeq + 1 {
      TracksNext(i, d, n, seen);
    } else {
      TracksAhead(i, d, n, seen);
    }
  }

  /** A gap is declared exactly when some delta arrives outside the window, and
      otherwise the instrument holds what has been seen, in any order of arrival and
      with any duplicates. */
  lemma {:induction false} ReceiveTracks(i: Inst, ds: seq<Delta>, n: nat, seen: set<nat>)
    requires Tracks(i, n, seen) && forall d :: d in ds ==> !Malformed(d.change)
    ensures Receive(i, ds).status == Ready <==> InWindow(n, seen, ds)
    ensures InWindow(n, seen, ds) ==> Tracks(Receive(i, ds), n, seen + Seqs(ds))
    decreases |ds|
  {
    if ds == [] {
      assert seen + Seqs(ds) == seen;
    } else {
      var d := ds[0];
      TracksStep(i, d, n, seen);
      assert d in ds && forall x :: x in ds[1..] ==> x in ds;
      var j := Classify(i, d, []).inst;
      if d.piSeq <= FirstMissing(n, seen) + REORDER_WINDOW {
        ReceiveTracks(j, ds[1..], n, seen + {d.piSeq});
        assert ds == [d] + ds[1..];
        assert seen + {d.piSeq} + Seqs(ds[1..]) == seen + Seqs(ds);
      }
    }
  }

  lemma {:induction false} ReceiveSound(h: Series, i: Inst, ds: seq<Delta>)
    requires i.status == Ready ==> InstOk(i)
    requires Sound(h, i) && i.depthBound.Some?
    requires forall d :: d in ds ==> OfSeries(h, d) && !Malformed(d.change)
    ensures Sound(h, Receive(i, ds)) && Receive(i, ds).depthBound.Some?
    decreases |ds|
  {
    if ds != [] && i.status == Ready {
      assert ds[0] in ds && forall x :: x in ds[1..] ==> x in ds;
      ClassifyOk(i, ds[0], []);
      ClassifySound(h, i, ds[0], []);
      ReceiveSound(h, Classify(i, ds[0], []).inst, ds[1..]);
    }
  }

  /** Any arrival order, with duplicates, of the deltas after `i.lastSeq` up to `m`,
      none outside the window: the window ends empty, nothing was lost, and the book
      is the one in-order application gives. */
  lemma ReorderingIsRepaired(h: Series, i: Inst, ds: seq<Delta>, m: nat)
    requires i.status == Ready && InstOk(i) && i.pending == map[] && Sound(h, i)
    requires forall d :: d in ds ==> OfSeries(h, d) && !Malformed(d.change) && d.piSeq <= m
    requires i.lastSeq <= m <= |h.steps| && forall s :: i.lastSeq < s <= m ==> s in Seqs(ds)
    requires InWindow(i.lastSeq, {}, ds)
    ensures var j := Receive(i, ds);
            j.status == Ready && j.lastSeq == m && j.pending == map[] && j.book == BookAt(h, m)
  {
    FreshlyTracks(i);
    ReceiveTracks(i, ds, i.lastSeq, {});
    ReceiveSound(h, i, ds);
    assert {} + Seqs(ds) == Seqs(ds);
    AllSeen(Receive(i, ds), i.lastSeq, Seqs(ds), m);
  }

  lemma FreshlyTracks(i: Inst)
    requires i.status == Ready && InstOk(i) && i.pending == map[]
    ensures Tracks(i, i.lastSeq, {})
  {
  }

  /** Everything up to `m` and nothing beyond seen: the window is empty at `m`. */
  lemma AllSeen(j: Inst, n: nat, seen: set<nat>, m: nat)
    requires Tracks(j, n, seen) && n <= m
    requires (forall s :: s in seen ==> s <= m) && forall s :: n < s <= m ==> s in seen
    ensures j.lastSeq == m && j.pending == map[]
  {
    SkipLostIs(n + 1, seen, m + 1);
    assert forall s :: s !in j.pending;
  }

  /** The count test of the window never fires on its own. */
  lemma CountFollowsDistance(i: Inst, d: Delta)
    requires i.status == Ready && InstOk(i) && d.piSeq > NextExpected(i)
    requires |i.pending[d.piSeq := d]| > REORDER_WINDOW
    ensures d.piSeq - NextExpected(i) > REORDER_WINDOW
  {
    ReadyExpectsNext(i);
    if d.piSeq <= i.lastSeq + 1 + REORDER_WINDOW {
      WindowCount(i, i.pending[d.piSeq := d]);
    }
  }
}
