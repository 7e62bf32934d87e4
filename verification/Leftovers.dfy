/** A delta stamped at or before its instrument's reset, arriving when the instrument
    is ready again: exactly when it does no harm. */
module Leftovers {
  import opened Book
  import opened Levels
  import opened InstrumentSpec
  import opened ShardInvariant
  import opened Publisher
  import opened SeriesSafety
  import opened Wrappers

  // ---- runs that settle prices ----

  /** Some delta of the run concerns this price, so what was there before is gone. */
  predicate RunSettles(ds: seq<Delta>, side: Side, price: Price) {
    exists d :: d in ds && Concerns(d.change, side, price)
  }

  /** Every price of both sides is settled by some delta of the run. */
  ghost predicate Washes(ds: seq<Delta>) {
    forall side, price :: RunSettles(ds, side, price)
  }

  /** After a run two books agree at a price exactly when the run settles it or they
      agreed before. */
  lemma {:induction false} RunPoint(a: Book, b: Book, ds: seq<Delta>, side: Side, price: Price)
    ensures Standing(InOrder(a, ds), side, price) == Standing(InOrder(b, ds), side, price) <==>
              RunSettles(ds, side, price) || Standing(a, side, price) == Standing(b, side, price)
    decreases |ds|
  {
    if ds != [] {
      var d, rest := ds[0], ds[1..];
      OneLeaves(a, d.change, side, price);
      OneLeaves(b, d.change, side, price);
      RunPoint(Apply(a, d.change), Apply(b, d.change), rest, side, price);
      assert ds == [d] + rest;
      assert RunSettles(ds, side, price) <==> Concerns(d.change, side, price) || RunSettles(rest, side, price);
    }
  }

  lemma SameSide(m: map<Price, Level>, n: map<Price, Level>)
    requires forall p: Price :: (p in m <==> p in n) && (p in m ==> m[p] == n[p])
    ensures m == n
  {
    forall e ensures e in m.Items <==> e in n.Items {
      var p: Price := e.0;
      assert p in m <==> p in n;
    }
    assert m.Items == n.Items;
    assert m.Keys == n.Keys;
  }

  lemma SamePoints(a: Book, b: Book)
    requires forall side, price :: Standing(a, side, price) == Standing(b, side, price)
    ensures a == b
  {
    forall p: Price ensures (p in a.bids <==> p in b.bids) && (p in a.bids ==> a.bids[p] == b.bids[p]) {
      assert Standing(a, Bid, p) == Standing(b, Bid, p);
    }
    forall p: Price ensures (p in a.asks <==> p in b.asks) && (p in a.asks ==> a.asks[p] == b.asks[p]) {
      assert Standing(a, Ask, p) == Standing(b, Ask, p);
    }
    SameSide(a.bids, b.bids);
    SameSide(a.asks, b.asks);
  }

  lemma WashedAlike(a: Book, b: Book, ds: seq<Delta>)
    requires Washes(ds)
    ensures InOrder(a, ds) == InOrder(b, ds)
  {
    forall side, price ensures Standing(InOrder(a, ds), side, price) == Standing(InOrder(b, ds), side, price) {
      RunPoint(a, b, ds, side, price);
    }
    SamePoints(InOrder(a, ds), InOrder(b, ds));
  }

  /** Unless the run washes, some other book stays another book. */
  lemma UnwashedDiffers(a: Book, ds: seq<Delta>) returns (b: Book)
    requires !Washes(ds)
    ensures InOrder(a, ds) != InOrder(b, ds)
  {
    var side, price :| !RunSettles(ds, side, price);
    b := a.With(side, if price in a.On(side) then a.On(side) - {price} else a.On(side)[price := Level(1, 1, 0)]);
    RunPoint(a, b, ds, side, price);
  }

  // ---- the drain as a run ----

  /** `ds` are the window's entries behind `last`, one after another. */
  predicate FromWindow(ds: seq<Delta>, window: map<nat, Delta>, last: nat) {
    forall n :: 0 <= n < |ds| ==>
      ds[n].piSeq == last + 1 + n && ds[n].piSeq in window && window[ds[n].piSeq] == ds[n]
  }

  lemma {:induction false} RunInWindow(i: Inst)
    requires Windowed(i) && i.lost == {}
    ensures FromWindow(DrainRun(i), i.pending, i.lastSeq)
    decreases i.pending.Keys
  {
    if i.lastSeq + 1 in i.pending {
      DrainStepOk(i);
      var m := DrainStep(i);
      RunInWindow(m);
      var d, rest := i.pending[i.lastSeq + 1], DrainRun(m);
      assert DrainRun(i) == [d] + rest;
      forall n | 0 <= n < |rest| + 1
        ensures var x := ([d] + rest)[n]; x.piSeq == i.lastSeq + 1 + n && x.piSeq in i.pending && i.pending[x.piSeq] == x
      {
        if n > 0 {
          var x := rest[n - 1];
          assert x.piSeq == m.lastSeq + 1 + (n - 1) && x.piSeq in m.pending && m.pending[x.piSeq] == x;
        }
      }
    }
  }

  lemma {:induction false} DrainBook(i: Inst)
    requires Windowed(i) && i.lost == {}
    ensures var j, ds := Drain(i), DrainRun(i);
            && j.book == InOrder(i.book, ds) && j.lastSeq == i.lastSeq + |ds|
            && j.lastMkt == if ds == [] then i.lastMkt else ds[|ds| - 1].mseq
    decreases i.pending.Keys
  {
    if i.lastSeq + 1 in i.pending {
      DrainStepOk(i);
      var m := DrainStep(i);
      DrainBook(m);
      var rest := DrainRun(m);
      assert DrainRun(i) == [i.pending[i.lastSeq + 1]] + rest && DrainRun(i)[1..] == rest;
    }
  }

  /** Draining applies its run, which is contiguous and taken from the window. */
  lemma DrainIsRun(i: Inst)
    requires Windowed(i) && i.lost == {}
    ensures var j, ds := Drain(i), DrainRun(i);
            && j.book == InOrder(i.book, ds) && j.lastSeq == i.lastSeq + |ds|
            && j == i.(book := j.book, lastMkt := j.lastMkt, lastSeq := j.lastSeq, pending := j.pending)
            && FromWindow(ds, i.pending, i.lastSeq)
            && (forall s :: s in j.pending ==> s in i.pending && j.pending[s] == i.pending[s])
            && j.lastMkt == if ds == [] then i.lastMkt else ds[|ds| - 1].mseq
  {
    RunInWindow(i);
    DrainBook(i);
    DrainOk(i);
  }

  /** The publisher's book runs along with well-formed deltas of its series. */
  lemma {:induction false} SeriesRun(h: Series, n: nat, ds: seq<Delta>)
    requires n + |ds| <= |h.steps|
    requires forall j :: 0 <= j < |ds| ==> h.steps[n + j] == Wire(ds[j].change)
    ensures BookAt(h, n + |ds|) == InOrder(BookAt(h, n), ds)
    decreases |ds|
  {
    if ds != [] {
      assert BookAt(h, n + 1) == Apply(BookAt(h, n), ds[0].change);
      SeriesRun(h, n + 1, ds[1..]);
    }
  }

  // ---- the condition ----

  /** What a caller can see before the call: the delta is old, or malformed, or too far
      ahead to be held, or next with a run behind it in the window that settles every
      price anew. */
  ghost predicate Harmless(i: Inst, d: Delta) {
    || d.piSeq <= i.lastSeq
    || Malformed(d.change)
    || d.piSeq > i.lastSeq + 1 + REORDER_WINDOW
    || (d.piSeq == i.lastSeq + 1 && Washes(DrainRun(ApplyOne(i, d))))
  }

  /** The publisher may be any with this floor whose history explains the instrument. */
  ghost predicate Explains(g: Series, floor: nat, i: Inst) {
    g.floor == floor && Sound(g, i)
  }

  /** What the window holds behind the expected delta is the series' own run. */
  lemma WindowRun(h: Series, i: Inst, d: Delta)
    requires InstOk(i) && i.status == Ready && Sound(h, i) && d.piSeq == i.lastSeq + 1
    requires i.lastSeq < |h.steps|
    ensures var j, ds := ApplyOne(i, d), DrainRun(ApplyOne(i, d));
            && Drain(j).lastSeq == d.piSeq + |ds| <= |h.steps| && Drain(j).book == InOrder(j.book, ds)
            && BookAt(h, d.piSeq + |ds|) == InOrder(BookAt(h, d.piSeq), ds)
            && (ds != [] ==> Drain(j).lastMkt > h.floor)
  {
    var j := ApplyOne(i, d);
    AppliedWindowed(i, d);
    DrainBook(j);
    RunFits(h, i, d);
    RunOfSeries(h, d.piSeq, DrainRun(j));
  }

  lemma RunFits(h: Series, i: Inst, d: Delta)
    requires InstOk(i) && i.status == Ready && Sound(h, i) && d.piSeq == i.lastSeq + 1
    ensures var ds := DrainRun(ApplyOne(i, d));
            forall k :: 0 <= k < |ds| ==> OfSeries(h, ds[k]) && ds[k].piSeq == d.piSeq + 1 + k && !Malformed(ds[k].change)
  {
    AppliedWindowed(i, d);
    RunInWindow(ApplyOne(i, d));
  }

  lemma RunOfSeries(h: Series, n: nat, ds: seq<Delta>)
    requires n <= |h.steps|
    requires forall k :: 0 <= k < |ds| ==> OfSeries(h, ds[k]) && ds[k].piSeq == n + 1 + k && !Malformed(ds[k].change)
    ensures n + |ds| <= |h.steps| && BookAt(h, n + |ds|) == InOrder(BookAt(h, n), ds)
  {
    assert ds != [] ==> ds[|ds| - 1].piSeq == n + |ds|;
    SeriesRun(h, n, ds);
  }

  /** What is left in the window after a drain was in it before. */
  lemma DrainedFits(h: Series, i: Inst, d: Delta)
    requires InstOk(i) && i.status == Ready && Sound(h, i) && d.piSeq == i.lastSeq + 1
    ensures var j := Drain(ApplyOne(i, d));
            (forall s :: s in j.pending ==> OfSeries(h, j.pending[s])) && j.requiredAnchor == i.requiredAnchor
  {
    AppliedWindowed(i, d);
    DrainIsRun(ApplyOne(i, d));
  }

  /** Something behind the leftover: the series has gone that far. */
  lemma RunWithin(h: Series, i: Inst, d: Delta)
    requires InstOk(i) && i.status == Ready && Sound(h, i) && d.piSeq == i.lastSeq + 1
    requires DrainRun(ApplyOne(i, d)) != []
    ensures i.lastSeq < |h.steps|
  {
    AppliedWindowed(i, d);
    RunInWindow(ApplyOne(i, d));
    assert DrainRun(ApplyOne(i, d))[0].piSeq == d.piSeq + 1;
    assert OfSeries(h, i.pending[d.piSeq + 1]);
  }

  /** A washed leftover: the window's run decides the book, and it is the series'. */
  lemma WashedBook(h: Series, i: Inst, d: Delta)
    requires InstOk(i) && i.status == Ready && Sound(h, i)
    requires d.piSeq == i.lastSeq + 1 && Washes(DrainRun(ApplyOne(i, d)))
    ensures var j := Drain(ApplyOne(i, d));
            j.lastSeq <= |h.steps| && j.book == BookAt(h, j.lastSeq) && j.lastMkt > h.floor
  {
    var j := ApplyOne(i, d);
    assert RunSettles(DrainRun(j), Bid, 0);
    RunWithin(h, i, d);
    WindowRun(h, i, d);
    WashedAlike(j.book, BookAt(h, d.piSeq), DrainRun(j));
  }

  lemma WashedSound(h: Series, i: Inst, d: Delta)
    requires InstOk(i) && i.status == Ready && Sound(h, i)
    requires d.piSeq == i.lastSeq + 1 && Washes(DrainRun(ApplyOne(i, d)))
    ensures Sound(h, Drain(ApplyOne(i, d)))
  {
    WashedBook(h, i, d);
    DrainedFits(h, i, d);
  }

  /** Harmless leftovers keep the publisher's book, and what they leave to buffer fits. */
  lemma HarmlessSound(h: Series, i: Inst, d: Delta, held: seq<Delta>)
    requires InstOk(i) && i.status == Ready && Sound(h, i) && Choice(i, d, held)
    requires d.mseq <= h.floor && Harmless(i, d)
    ensures Sound(h, Classify(i, d, held).inst) && AllFit(h, Classify(i, d, held).spill)
  {
    ReadyExpectsNext(i);
    if d.piSeq == i.lastSeq + 1 && !Malformed(d.change) {
      ContiguousOk(i, d, held);
      WashedSound(h, i, d);
    } else if IsDemotedByMalformed(i, d) {
      assert forall x :: x in held ==> x.piSeq in i.pending && i.pending[x.piSeq] == x;
    }
  }

  /** Another history that explains the instrument: its next mutation leaves `b`. */
  function Otherwise(h: Series, n: nat, b: Book): Series
    requires n <= |h.steps|
  {
    h.(steps := if n < |h.steps| then h.steps[n := Intended(b)] else h.steps + [Intended(b)])
  }

  lemma {:induction false} SameBefore(h: Series, g: Series, n: nat)
    requires n <= |h.steps| && n <= |g.steps| && g.base == h.base
    requires forall j :: 0 <= j < n ==> g.steps[j] == h.steps[j]
    ensures BookAt(g, n) == BookAt(h, n)
  {
    if n > 0 {
      SameBefore(h, g, n - 1);
    }
  }

  lemma OtherwiseExplains(h: Series, i: Inst, b: Book)
    requires InstOk(i) && i.status == Ready && Sound(h, i)
    ensures var g := Otherwise(h, i.lastSeq, b);
            Explains(g, h.floor, i) && BookAt(g, i.lastSeq + 1) == b
  {
    var g := Otherwise(h, i.lastSeq, b);
    SameBefore(h, g, i.lastSeq);
    forall s | s in i.pending ensures OfSeries(g, i.pending[s]) {
      assert OfSeries(h, i.pending[s]);
    }
    assert g.steps[i.lastSeq] == Intended(b);
  }

  /** Another history under which an unwashed leftover leaves the wrong book. */
  lemma UnwashedHarms(h: Series, i: Inst, d: Delta) returns (g: Series)
    requires InstOk(i) && i.status == Ready && Sound(h, i)
    requires d.piSeq == i.lastSeq + 1 && !Washes(DrainRun(ApplyOne(i, d)))
    ensures Explains(g, h.floor, i)
    ensures var j := Drain(ApplyOne(i, d)); j.lastSeq <= |g.steps| && j.book != BookAt(g, j.lastSeq)
  {
    var j := ApplyOne(i, d);
    var b := UnwashedDiffers(j.book, DrainRun(j));
    g := Otherwise(h, i.lastSeq, b);
    OtherwiseExplains(h, i, b);
    WindowRun(g, i, d);
  }

  /** A leftover at the expected seq, not washed out, is wrong for some publisher. */
  lemma NextLeftoverHarms(h: Series, i: Inst, d: Delta, held: seq<Delta>) returns (g: Series)
    requires InstOk(i) && i.status == Ready && Sound(h, i)
    requires d.piSeq == i.lastSeq + 1 && !Malformed(d.change) && !Harmless(i, d)
    ensures Explains(g, h.floor, i)
    ensures var j := Classify(i, d, held).inst;
            j.status == Ready && j.lastSeq <= |g.steps| && j.book != BookAt(g, j.lastSeq) && !Sound(g, j)
  {
    g := UnwashedHarms(h, i, d);
    ContiguousOk(i, d, held);
    AppliedWindowed(i, d);
    WrongBook(g, Drain(ApplyOne(i, d)));
  }

  lemma WrongBook(g: Series, j: Inst)
    requires InstOk(j) && j.status == Ready && j.lastSeq <= |g.steps| && j.book != BookAt(g, j.lastSeq)
    ensures !Sound(g, j)
  {
  }

  /** A leftover that is held is no delta of the series. */
  lemma EarlyLeftoverHarms(h: Series, i: Inst, d: Delta, held: seq<Delta>)
    requires InstOk(i) && i.status == Ready && d.mseq <= h.floor
    requires d.piSeq > i.lastSeq + 1 && !Harmless(i, d)
    ensures !Sound(h, Classify(i, d, held).inst)
  {
    ReadyExpectsNext(i);
    var w := i.pending[d.piSeq := d];
    WindowCount(i, w);
    assert d.piSeq in w && w[d.piSeq] == d;
  }

  /** The exact condition. A leftover leaves a ready instrument right, for every
      publisher that explains it, exactly when it is harmless. */
  lemma HarmlessExactly(h: Series, i: Inst, d: Delta, held: seq<Delta>)
    requires InstOk(i) && i.status == Ready && Sound(h, i) && Choice(i, d, held) && d.mseq <= h.floor
    ensures (forall g :: Explains(g, h.floor, i) ==> Sound(g, Classify(i, d, held).inst)) <==> Harmless(i, d)
  {
    if Harmless(i, d) {
      forall g | Explains(g, h.floor, i) ensures Sound(g, Classify(i, d, held).inst) {
        HarmlessSound(g, i, d, held);
      }
    } else if d.piSeq == i.lastSeq + 1 {
      var g := NextLeftoverHarms(h, i, d, held);
      assert Explains(g, h.floor, i) && !Sound(g, Classify(i, d, held).inst);
    } else {
      EarlyLeftoverHarms(h, i, d, held);
      assert Explains(h, h.floor, i);
    }
  }

  /** A delta of the series, or a harmless leftover: what a ready instrument may get. */
  lemma DeliveredSound(h: Series, i: Inst, d: Delta, held: seq<Delta>)
    requires InstOk(i) && i.status == Ready && Sound(h, i) && Choice(i, d, held)
    requires Fits(h, d) && (OfSeries(h, d) || Harmless(i, d))
    ensures Sound(h, Classify(i, d, held).inst) && AllFit(h, Classify(i, d, held).spill)
  {
    if OfSeries(h, d) {
      ClassifySound(h, i, d, held);
    } else {
      HarmlessSound(h, i, d, held);
    }
  }
}
