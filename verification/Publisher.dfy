/** The publisher's side: the series of mutations behind one instrument's
    Per-Instrument Seq, and the groups on the snapshot port. */
module Publisher {
  import opened Wrappers
  import opened Book
  import opened Levels
  import opened InstrumentSpec
  import opened ShardSpec

  /** One step of the publisher's book. The message of an Intended step went out
      malformed: what it was meant to do can be anything. */
  datatype Mutation = Wire(change: Change) | Intended(result: Book)

  /** An instrument's series since its last reset. `floor` is the reset's New Anchor
      Seq: everything of the series is stamped with a later mktdata seq. */
  datatype Series = Series(floor: nat, base: Book, steps: seq<Mutation>)

  /** The publisher's book once its first `n` mutations are applied. */
  ghost function BookAt(h: Series, n: nat): Book
    requires n <= |h.steps|
  {
    if n == 0 then h.base
    else
      match h.steps[n - 1]
      case Wire(c) => Apply(BookAt(h, n - 1), c)
      case Intended(b) => b
  }

  /** The step decides what stands at a price: a message that concerns it does, and so
      does one whose effect is not what was sent. */
  predicate Decides(m: Mutation, side: Side, price: Price) {
    m.Intended? || Concerns(m.change, side, price)
  }

  function Decided(m: Mutation, side: Side, price: Price): Option<Level> {
    if m.Intended? then Standing(m.result, side, price) else Said(m.change)
  }

  /** Of the first `n` steps, `j` is the last to decide a price. */
  predicate LastStep(h: Series, n: nat, j: nat, side: Side, price: Price) {
    && j < n <= |h.steps| && Decides(h.steps[j], side, price)
    && forall k :: j < k < n ==> !Decides(h.steps[k], side, price)
  }

  /** The publisher's book, price by price: what the last step to decide it says, or the
      base if none does. */
  lemma {:induction false} SeriesLeaves(h: Series, n: nat, side: Side, price: Price)
    requires n <= |h.steps|
    ensures forall j: nat :: LastStep(h, n, j, side, price) ==>
              Standing(BookAt(h, n), side, price) == Decided(h.steps[j], side, price)
    ensures (forall k :: 0 <= k < n ==> !Decides(h.steps[k], side, price)) ==>
              Standing(BookAt(h, n), side, price) == Standing(h.base, side, price)
  {
    if n > 0 {
      SeriesLeaves(h, n - 1, side, price);
      var m := h.steps[n - 1];
      if m.Wire? {
        OneLeaves(BookAt(h, n - 1), m.change, side, price);
      }
      forall j: nat | LastStep(h, n, j, side, price)
        ensures Standing(BookAt(h, n), side, price) == Decided(h.steps[j], side, price)
      {
        if j < n - 1 {
          assert LastStep(h, n - 1, j, side, price) && !Decides(m, side, price);
        }
      }
    }
  }

  /** A delta of this series, as sent: the mutation its seq names, unless malformed. */
  ghost predicate OfSeries(h: Series, d: Delta) {
    && d.mseq > h.floor && 1 <= d.piSeq <= |h.steps|
    && (!Malformed(d.change) ==> h.steps[d.piSeq - 1] == Wire(d.change))
  }

  /** A delta of this series or a leftover from before its reset. */
  ghost predicate Fits(h: Series, d: Delta) {
    d.mseq > h.floor ==> OfSeries(h, d)
  }

  /** A group on the snapshot port. */
  datatype Group = Group(key: Key, header: GroupHeader, levels: seq<SnapLevel>)

  /** A group captured in this series carries the publisher's book at its Last
      Instrument Seq. One captured before the reset can carry anything. */
  ghost predicate GroupFits(h: Series, g: Group) {
    g.header.anchor >= h.floor ==>
      g.header.last <= |h.steps| && BookOf(g.levels) == BookAt(h, g.header.last)
  }

  /** What a publisher guarantees of one channel's groups: counts are right, and per
      instrument Snapshot IDs never repeat and anchors never go back. Ids of
      different instruments may collide. */
  ghost predicate StreamOk(ch: nat, stream: seq<Group>) {
    && (forall g :: 0 <= g < |stream| ==>
          stream[g].key.ch == ch && stream[g].header.total == |stream[g].levels|)
    && (forall g, j :: 0 <= g < j < |stream| && stream[g].key == stream[j].key ==>
          stream[g].header.id != stream[j].header.id &&
          stream[g].header.anchor <= stream[j].header.anchor)
  }

  /** The last record delivered of a channel's snapshot port: record `p` of group
      `g`, where 0 is the begin, 1.. the levels and the last the end. `whole` says
      that nothing of the group has been lost so far. */
  datatype Cursor = Cursor(g: int, p: nat, whole: bool)

  const START := Cursor(-1, 0, false)

  /** A FIFO, lossy, non-duplicating port: delivery only moves forward. */
  predicate Ahead(c: Cursor, g: int, p: nat) {
    g > c.g || (g == c.g && p > c.p)
  }

  function Moved(c: Cursor, g: nat, p: nat): Cursor {
    Cursor(g, p, p == 0 || (c.whole && g == c.g && p == c.p + 1))
  }

  /** `rec` is record `p` of group `g` of this stream. A level names no instrument. */
  ghost predicate IsRecord(stream: seq<Group>, g: nat, p: nat, rec: Record) {
    && g < |stream| && p <= |stream[g].levels| + 1
    && var group := stream[g];
    if p == 0 then rec.body == SnapshotBegin(group.header) && rec.inst == group.key.id
    else if p <= |group.levels| then rec.body == SnapshotLevel(group.header.id, group.levels[p - 1])
    else rec.body == SnapshotEnd(group.header.id, group.header.anchor) && rec.inst == group.key.id
  }
}
