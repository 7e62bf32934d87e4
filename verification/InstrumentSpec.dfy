/** One Market-by-Price instrument as a value, and what each operation does to it. */
module InstrumentSpec {
  import opened Wrappers
  import opened Book

  datatype Status = AwaitingSnapshot | Ready | Gap

  /** A book-affecting market-data record: the sequence number of its datagram,
      its Per-Instrument Seq, and its body. */
  datatype Delta = Delta(mseq: nat, piSeq: nat, change: Change)

  /** The identity a SnapshotBegin states. */
  datatype GroupHeader = GroupHeader(id: nat, anchor: nat, total: nat, last: nat, depth: nat)

  datatype Shadow = Shadow(header: GroupHeader, received: nat, book: Book)

  datatype Inst = Inst(
    status: Status,
    book: Book,
    depthBound: Option<nat>,
    lastMkt: nat,
    lastSeq: nat,
    requiredAnchor: Option<nat>,
    requiredSeq: Option<nat>,
    shadow: Option<Shadow>,
    pending: map<nat, Delta>,
    lost: set<nat>)

  const REORDER_WINDOW := 16

  const FRESH := Inst(AwaitingSnapshot, EMPTY, None, 0, 0, None, None, None, map[], {})

  datatype Event =
    | AppliedDelta(delta: Delta)
    | AppliedSnapshot(id: nat, anchor: nat)
    | InstrumentReset(newAnchor: nat)
    | InstrumentDefinition
    | BatchBoundary
    | Trade
    | PerInstrumentGap(delta: Delta)
    | MalformedDelta(delta: Delta)

  // ---- sequence tracking ----

  function SkipLost(from: nat, lost: set<nat>): (n: nat)
    ensures n >= from && n !in lost
    decreases lost
  {
    if from in lost then SkipLost(from + 1, lost - {from}) else from
  }

  function NextExpected(i: Inst): nat {
    SkipLost(i.lastSeq + 1, i.lost)
  }

  function PruneLost(lost: set<nat>, upTo: nat): set<nat> {
    set x | x in lost && x > upTo
  }

  /** The requirement never falls. */
  function RaiseTo(required: Option<nat>, seqNo: nat): Option<nat> {
    if required.Some? && required.value >= seqNo then required else Some(seqNo)
  }

  /** The Per-Instrument Seqs of some deltas. */
  function Seqs(ds: seq<Delta>): set<nat> {
    set d | d in ds :: d.piSeq
  }

  ghost predicate IsHighest(base: nat, keys: set<nat>, n: nat) {
    n >= base && (forall x :: x in keys ==> x <= n) && (n == base || n in keys)
  }

  lemma {:induction false} HighestExists(base: nat, keys: set<nat>)
    ensures exists n :: IsHighest(base, keys, n)
    decreases keys
  {
    if keys == {} {
      assert IsHighest(base, keys, base);
    } else {
      var x :| x in keys;
      HighestExists(base, keys - {x});
      var n :| IsHighest(base, keys - {x}, n);
      assert keys == (keys - {x}) + {x};
      assert IsHighest(base, keys, if x > n then x else n);
    }
  }

  /** The greatest of `base` and the members of `keys`. */
  ghost function Highest(base: nat, keys: set<nat>): (n: nat)
    ensures IsHighest(base, keys, n)
  {
    HighestExists(base, keys);
    var n :| IsHighest(base, keys, n);
    n
  }

  lemma HighestIs(base: nat, keys: set<nat>, n: nat)
    requires IsHighest(base, keys, n)
    ensures n == Highest(base, keys)
  {
  }

  // ---- deltas ----

  function ApplyOne(i: Inst, d: Delta): Inst {
    i.(book := Apply(i.book, d.change), lastMkt := d.mseq, lastSeq := d.piSeq,
       lost := PruneLost(i.lost, d.piSeq))
  }

  /** Take the next expected delta out of the reorder window and apply it. */
  function DrainStep(i: Inst): Inst
    requires NextExpected(i) in i.pending
  {
    var next := NextExpected(i);
    ApplyOne(i.(pending := i.pending - {next}), i.pending[next])
  }

  /** Apply the contiguous run held in the reorder window. */
  function Drain(i: Inst): Inst
    decreases i.pending.Keys
  {
    if NextExpected(i) in i.pending then Drain(DrainStep(i)) else i
  }

  /** The deltas Drain applies, in order. */
  function DrainRun(i: Inst): seq<Delta>
    decreases i.pending.Keys
  {
    if NextExpected(i) in i.pending then [i.pending[NextExpected(i)]] + DrainRun(DrainStep(i)) else []
  }

  /** The book after these changes, in order. */
  function InOrder(b: Book, ds: seq<Delta>): Book
    decreases |ds|
  {
    if ds == [] then b else InOrder(Apply(b, ds[0].change), ds[1..])
  }

  function Applied(ds: seq<Delta>): (evs: seq<Event>)
    ensures |evs| == |ds| && forall j :: 0 <= j < |ds| ==> evs[j] == AppliedDelta(ds[j])
  {
    if ds == [] then [] else [AppliedDelta(ds[0])] + Applied(ds[1..])
  }

  function DemoteMalformed(i: Inst, seqNo: nat): Inst {
    i.(status := Gap, lost := i.lost + {seqNo}, requiredSeq := RaiseTo(i.requiredSeq, seqNo),
       pending := map[])
  }

  ghost function DeclareGap(i: Inst, window: map<nat, Delta>, seqNo: nat): Inst
    requires seqNo > 0
  {
    i.(status := Gap, pending := map[],
       requiredSeq := RaiseTo(i.requiredSeq, Highest(seqNo - 1, window.Keys - {seqNo})))
  }

  /** What one operation leaves: the instrument, the deltas to buffer for it in
      order, and the events it reports. */
  datatype Outcome = Outcome(inst: Inst, spill: seq<Delta>, events: seq<Event>)

  /** `held` lists the entries of `window` once each, in some order: the order in
      which a map happens to be iterated. */
  ghost predicate Enumerates(held: seq<Delta>, window: map<nat, Delta>) {
    && (forall j :: 0 <= j < |held| ==> held[j].piSeq in window && window[held[j].piSeq] == held[j])
    && (forall s :: s in window ==> window[s] in held)
    && (forall j, k :: 0 <= j < k < |held| ==> held[j].piSeq != held[k].piSeq)
  }

  /** Every entry of the window sits under its own seq. */
  predicate Keyed(window: map<nat, Delta>) {
    forall s :: s in window ==> window[s].piSeq == s
  }

  predicate IsDemotedByMalformed(i: Inst, d: Delta) {
    d.piSeq >= NextExpected(i) && Malformed(d.change)
  }

  /** A delta reaching a ready instrument. `held` is the order in which a
      malformed record's demotion hands the reorder window to the buffer. */
  ghost function Classify(i: Inst, d: Delta, held: seq<Delta>): Outcome {
    var expected := NextExpected(i);
    if d.piSeq < expected then Outcome(i, [], [])
    else if Malformed(d.change) then
      Outcome(DemoteMalformed(i, d.piSeq), held, [MalformedDelta(d)])
    else if d.piSeq > expected then
      var window := i.pending[d.piSeq := d];
      if |window| <= REORDER_WINDOW && d.piSeq - expected <= REORDER_WINDOW
      then Outcome(i.(pending := window), [], [])
      else Outcome(DeclareGap(i, window, d.piSeq), [d], [PerInstrumentGap(d)])
    else
      var j := ApplyOne(i, d);
      Outcome(Drain(j), [], Applied([d] + DrainRun(j)))
  }

  /** `held` is a possible choice for Classify. */
  ghost predicate Choice(i: Inst, d: Delta, held: seq<Delta>) {
    IsDemotedByMalformed(i, d) ==> Enumerates(held, i.pending)
  }

  /** Replay of the buffer on a committed snapshot. */
  ghost function Replay(i: Inst, buf: seq<Delta>, held: seq<Delta>): Outcome
    decreases |buf|
  {
    if buf == [] then Outcome(i, [], [])
    else if buf[0].mseq <= i.lastMkt then Replay(i, buf[1..], held)
    else if i.status != Ready then
      var rest := Replay(i, buf[1..], held);
      rest.(spill := [buf[0]] + rest.spill)
    else
      var now := Classify(i, buf[0], held);
      var rest := Replay(now.inst, buf[1..], held);
      Outcome(rest.inst, now.spill + rest.spill, now.events + rest.events)
  }

  ghost predicate ReplayChoice(i: Inst, buf: seq<Delta>, held: seq<Delta>)
    decreases |buf|
  {
    if buf == [] then true
    else if buf[0].mseq <= i.lastMkt || i.status != Ready then ReplayChoice(i, buf[1..], held)
    else Choice(i, buf[0], held) && ReplayChoice(Classify(i, buf[0], held).inst, buf[1..], held)
  }

  // ---- snapshots ----

  datatype Verdict = StaleAnchor | StaleSeq | Current | Accepted

  function Judge(i: Inst, anchor: nat, last: nat): Verdict {
    if i.requiredAnchor.Some? && anchor < i.requiredAnchor.value then StaleAnchor
    else if i.requiredSeq.Some? && last < i.requiredSeq.value then StaleSeq
    else if i.status != Ready || last > i.lastSeq then Accepted
    else Current
  }

  function Begin(i: Inst, h: GroupHeader): Inst {
    if Judge(i, h.anchor, h.last) == Accepted then i.(shadow := Some(Shadow(h, 0, EMPTY))) else i
  }

  function Level(i: Inst, id: nat, l: SnapLevel): Inst {
    if i.shadow.None? || i.shadow.value.header.id != id then i
    else
      var sh := i.shadow.value;
      i.(shadow := Some(Shadow(sh.header, sh.received + 1, AddLevel(sh.book, l))))
  }

  /** Whether a SnapshotEnd commits the open shadow. */
  predicate Commits(i: Inst, id: nat, anchor: nat) {
    i.shadow.Some? &&
    var sh := i.shadow.value;
    sh.header.id == id && sh.header.anchor == anchor && sh.received == sh.header.total &&
    (i.requiredSeq.Some? ==> sh.header.last >= i.requiredSeq.value)
  }

  function Commit(i: Inst): Inst
    requires i.shadow.Some?
  {
    var sh := i.shadow.value;
    i.(status := Ready, book := sh.book, depthBound := Some(sh.header.depth),
       lastMkt := sh.header.anchor, lastSeq := sh.header.last,
       lost := PruneLost(i.lost, sh.header.last),
       requiredAnchor := if i.requiredAnchor.Some? && sh.header.anchor >= i.requiredAnchor.value
                         then None else i.requiredAnchor,
       requiredSeq := None, shadow := None, pending := map[])
  }

  /** A SnapshotEnd: commit, or drop the shadow and nothing else. */
  function End(i: Inst, id: nat, anchor: nat): Inst {
    if Commits(i, id, anchor) then Commit(i) else i.(shadow := None)
  }

  function Reset(anchor: nat): Inst {
    FRESH.(requiredAnchor := Some(anchor))
  }

  /** What an eviction of the instrument's buffer does to it. */
  ghost function Evicted(i: Inst, buf: seq<Delta>): Inst {
    i.(status := Gap, pending := map[],
       requiredSeq := RaiseTo(i.requiredSeq, Highest(i.lastSeq + 1, Seqs(buf))))
  }
}
