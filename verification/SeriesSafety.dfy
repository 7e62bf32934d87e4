/** One instrument against its publisher's series: what keeps its book equal to the
    publisher's book at its tracker. */
module SeriesSafety {
  import opened Book
  import opened InstrumentSpec
  import opened ShardInvariant
  import opened Publisher

  /** Once a snapshot of the series has committed, the book is the publisher's book
      at exactly the last applied Per-Instrument Seq, whatever the status. */
  ghost predicate Sound(h: Series, i: Inst) {
    && (i.depthBound.Some? ==>
          i.lastSeq <= |h.steps| && i.book == BookAt(h, i.lastSeq) && i.lastMkt >= h.floor)
    && (forall s :: s in i.pending ==> OfSeries(h, i.pending[s]))
    && (i.requiredAnchor.Some? ==> i.requiredAnchor.value == h.floor)
  }

  ghost predicate AllFit(h: Series, ds: seq<Delta>) {
    forall d :: d in ds ==> Fits(h, d)
  }

  lemma ApplySound(h: Series, i: Inst, d: Delta)
    requires Sound(h, i) && i.depthBound.Some?
    requires OfSeries(h, d) && d.piSeq == i.lastSeq + 1 && !Malformed(d.change)
    ensures Sound(h, ApplyOne(i, d))
  {
  }

  lemma {:induction false} DrainSound(h: Series, i: Inst)
    requires Sound(h, i) && i.depthBound.Some? && Windowed(i) && i.lost == {}
    ensures Sound(h, Drain(i))
    decreases i.pending.Keys
  {
    if i.lastSeq + 1 in i.pending {
      DrainStepOk(i);
      ApplySound(h, i, i.pending[i.lastSeq + 1]);
      DrainSound(h, DrainStep(i));
    }
  }

  lemma ClassifySound(h: Series, i: Inst, d: Delta, held: seq<Delta>)
    requires InstOk(i) && i.status == Ready && Sound(h, i) && OfSeries(h, d) && Choice(i, d, held)
    ensures Sound(h, Classify(i, d, held).inst) && AllFit(h, Classify(i, d, held).spill)
  {
    ReadyExpectsNext(i);
    if d.piSeq == i.lastSeq + 1 && !Malformed(d.change) {
      ContiguousOk(i, d, held);
      ApplySound(h, i, d);
      DrainSound(h, ApplyOne(i, d));
    } else if IsDemotedByMalformed(i, d) {
      assert forall x :: x in held ==> x.piSeq in i.pending && i.pending[x.piSeq] == x;
    }
  }

  /** Replay drops what the anchor covers, so leftovers from before the reset never
      reach the book. */
  lemma {:induction false} ReplaySound(h: Series, i: Inst, buf: seq<Delta>, held: seq<Delta>)
    requires InstOk(i) && i.depthBound.Some? && Sound(h, i)
    requires AllFit(h, buf) && ReplayChoice(i, buf, held)
    ensures var o := Replay(i, buf, held);
            Sound(h, o.inst) && AllFit(h, o.spill) && o.inst.depthBound.Some?
    decreases |buf|
  {
    if buf != [] {
      assert buf[0] in buf && forall d :: d in buf[1..] ==> d in buf;
      if buf[0].mseq <= i.lastMkt || i.status != Ready {
        ReplaySound(h, i, buf[1..], held);
      } else {
        ClassifySound(h, i, buf[0], held);
        ClassifyOk(i, buf[0], held);
        ReplaySound(h, Classify(i, buf[0], held).inst, buf[1..], held);
      }
    }
  }

  /** A committed shadow that carries the publisher's book at its Last Instrument
      Seq, captured in the series, leaves the instrument sound. */
  lemma CommitSound(h: Series, i: Inst)
    requires InstOk(i) && Sound(h, i) && i.shadow.Some?
    requires var sh := i.shadow.value;
             sh.header.last <= |h.steps| && sh.book == BookAt(h, sh.header.last) && sh.header.anchor >= h.floor
    ensures Sound(h, Commit(i)) && Commit(i).requiredAnchor.None?
  {
  }

  lemma AgedSound(h: Series, i: Inst, j: Inst)
    requires Sound(h, i) && Aged(i, j)
    ensures Sound(h, j)
  {
  }
}
