/** One Market-by-Price shard as a value, and the steps its inbox drives.

    A step is a relation where the source iterates a map: which of several equally
    large buffers an overflow evicts, and in which order a malformed record's
    demotion hands the reorder window to the buffer. */
module ShardSpec {
  import opened Wrappers
  import opened Book
  import opened InstrumentSpec

  datatype Key = Key(ch: nat, id: nat)

  datatype Strike = Strike(exponent: int, boundFlags: nat, lower: int, upper: int)

  /** An instrument definition, without its display fields. */
  datatype Def = Def(manifestSeq: nat, sourceId: nat, strike: Option<Strike>)

  datatype Body =
    | BookDelta(piSeq: nat, change: Change)
    | ResetBook(newAnchor: nat)
    | TradePrint
    | Definition(manifestSeq: nat, sourceId: nat)
    | StrikeInterval(sourceId: nat, strike: Strike)
    | SnapshotBegin(header: GroupHeader)
    | SnapshotLevel(id: nat, level: SnapLevel)
    | SnapshotEnd(id: nat, anchor: nat)
    | Boundary
    | Heartbeat
    | ManifestSummary(seqNo: nat, valid: bool)
    | EndOfSession

  datatype Record = Record(ch: nat, port: nat, seqNo: nat, msgIndex: nat, inst: nat,
                           resetCount: nat, body: Body)
  {
    function At(): Key { Key(ch, inst) }

    function AsDelta(): Delta
      requires body.BookDelta?
    {
      Delta(seqNo, body.piSeq, body.change)
    }
  }

  datatype Message = Rec(rec: Record) | Wipe(ch: nat) | Fence | Prune(seqNo: nat) | ClearShadows

  datatype Shard = Shard(
    insts: map<Key, Inst>,
    refdata: map<Key, Def>,
    bufs: map<Key, seq<Delta>>,
    bufferedN: int,
    maxBuffered: nat,
    sawBoundary: bool,
    touched: set<Key>,
    crossed: set<Key>)
  {
    function Buf(k: Key): seq<Delta> {
      if k in bufs then bufs[k] else []
    }

    /** The instrument at `k`, or the new one the source would create there. */
    function InstFor(k: Key): Inst {
      if k in insts then insts[k] else FRESH
    }

    function Put(k: Key, i: Inst): Shard {
      this.(insts := insts[k := i])
    }
  }

  function NewShard(maxBuffered: nat): Shard {
    Shard(map[], map[], map[], 0, maxBuffered, false, {}, {})
  }

  // ---- the delta buffer ----

  ghost function Total(bufs: map<Key, seq<Delta>>): nat {
    if bufs == map[] then 0
    else
      var k :| k in bufs;
      |bufs[k]| + Total(bufs - {k})
  }

  /** Stable insertion by mktdata seq: behind every entry that is not later. */
  function Insert(buf: seq<Delta>, d: Delta): seq<Delta> {
    if buf == [] || buf[|buf| - 1].mseq <= d.mseq then buf + [d]
    else Insert(buf[..|buf| - 1], d) + [buf[|buf| - 1]]
  }

  function Appended(s: Shard, k: Key, d: Delta): Shard {
    s.(bufs := s.bufs[k := Insert(s.Buf(k), d)], bufferedN := s.bufferedN + 1)
  }

  ghost predicate IsLargest(bufs: map<Key, seq<Delta>>, v: Key) {
    v in bufs && forall k :: k in bufs ==> |bufs[k]| <= |bufs[v]|
  }

  ghost function Evict(s: Shard, v: Key): Shard
    requires v in s.bufs
  {
    s.(insts := s.insts[v := Evicted(s.InstFor(v), s.bufs[v])],
       bufs := s.bufs - {v}, bufferedN := s.bufferedN - |s.bufs[v]|)
  }

  ghost predicate Buffers(s: Shard, k: Key, d: Delta, s': Shard) {
    var t := Appended(s, k, d);
    if t.bufferedN <= t.maxBuffered then s' == t
    else exists v :: IsLargest(t.bufs, v) && s' == Evict(t, v)
  }

  ghost predicate BuffersAll(s: Shard, k: Key, ds: seq<Delta>, s': Shard)
    decreases |ds|
  {
    if ds == [] then s' == s
    else exists m :: Buffers(s, k, ds[0], m) && BuffersAll(m, k, ds[1..], s')
  }

  // ---- records ----

  ghost predicate HandlesDelta(s: Shard, k: Key, d: Delta, s': Shard, evs: seq<Event>) {
    if k !in s.insts || s.insts[k].status != Ready then evs == [] && Buffers(s, k, d, s')
    else
      exists held: seq<Delta> :: Choice(s.insts[k], d, held) &&
        var o := Classify(s.insts[k], d, held);
        evs == o.events && BuffersAll(s.Put(k, o.inst), k, o.spill, s')
  }

  function TakeBuffer(s: Shard, k: Key): Shard {
    s.(bufs := s.bufs - {k}, bufferedN := s.bufferedN - |s.Buf(k)|)
  }

  ghost predicate HandlesEnd(s: Shard, k: Key, id: nat, anchor: nat, s': Shard, evs: seq<Event>) {
    if k !in s.insts || s.insts[k].shadow.None? then s' == s && evs == []
    else if !Commits(s.insts[k], id, anchor) then
      s' == s.Put(k, End(s.insts[k], id, anchor)) && evs == []
    else
      var i := End(s.insts[k], id, anchor);
      exists held: seq<Delta> :: ReplayChoice(i, s.Buf(k), held) &&
        var o := Replay(i, s.Buf(k), held);
        evs == [AppliedSnapshot(id, anchor)] + o.events &&
        BuffersAll(TakeBuffer(s, k).Put(k, o.inst), k, o.spill, s')
  }

  function Newer(buf: seq<Delta>, anchor: nat): seq<Delta> {
    if buf == [] then []
    else if buf[0].mseq > anchor then [buf[0]] + Newer(buf[1..], anchor)
    else Newer(buf[1..], anchor)
  }

  function HandleReset(s: Shard, k: Key, anchor: nat): Shard {
    var kept := Newer(s.Buf(k), anchor);
    s.(insts := s.insts[k := Reset(anchor)],
       bufs := if kept == [] then s.bufs - {k} else s.bufs[k := kept],
       bufferedN := s.bufferedN - (|s.Buf(k)| - |kept|),
       crossed := s.crossed - {k}, touched := s.touched - {k})
  }

  function HandleDefinition(s: Shard, k: Key, manifestSeq: nat, sourceId: nat): Shard {
    s.(refdata := s.refdata[k := Def(manifestSeq, sourceId, None)],
       insts := s.insts[k := s.InstFor(k)])
  }

  function HandleStrike(s: Shard, k: Key, strike: Strike): Shard {
    if k in s.refdata then s.(refdata := s.refdata[k := s.refdata[k].(strike := Some(strike))]) else s
  }

  // ---- crossed-book monitoring ----

  ghost function Reevaluate(s: Shard, ks: set<Key>): set<Key> {
    (set k | k in s.crossed && !(k in ks && k in s.insts)) +
    (set k | k in ks && k in s.insts && s.insts[k].book.Crossed())
  }

  predicate ChangesBook(evs: seq<Event>) {
    exists e :: e in evs && (e.AppliedDelta? || e.AppliedSnapshot?)
  }

  ghost function Note(s: Shard, k: Key, evs: seq<Event>): Shard {
    if !ChangesBook(evs) || k !in s.insts then s
    else if s.sawBoundary then s.(touched := s.touched + {k})
    else s.(crossed := Reevaluate(s, {k}))
  }

  ghost function HandleBoundary(s: Shard): Shard {
    s.(sawBoundary := true, crossed := Reevaluate(s, s.touched), touched := {})
  }

  // ---- wipes ----

  ghost function DropKeys(s: Shard, ks: set<Key>): Shard {
    s.(insts := s.insts - ks, refdata := s.refdata - ks, bufs := s.bufs - ks,
       bufferedN := s.bufferedN - Total(map k | k in s.bufs && k in ks :: s.bufs[k]),
       crossed := s.crossed - ks, touched := s.touched - ks)
  }

  function OutOfManifest(s: Shard, newSeq: nat): set<Key> {
    set k | k in s.refdata && s.refdata[k].manifestSeq + 1 < newSeq
  }

  function OnChannel(s: Shard, ch: nat): set<Key> {
    set k | k in s.insts.Keys + s.refdata.Keys + s.bufs.Keys + s.crossed + s.touched && k.ch == ch
  }

  ghost function HandlePrune(s: Shard, newSeq: nat): Shard {
    if newSeq <= 1 then s else DropKeys(s, OutOfManifest(s, newSeq))
  }

  ghost function HandleWipe(s: Shard, ch: nat): Shard {
    DropKeys(s, OnChannel(s, ch)).(sawBoundary := false)
  }

  function HandleClearShadows(s: Shard): Shard {
    s.(insts := map k | k in s.insts :: s.insts[k].(shadow := None))
  }

  // ---- one message ----

  /** The records whose effect does not depend on an iteration order. */
  ghost function Plain(s: Shard, k: Key, body: Body): Shard {
    match body
    case ResetBook(anchor) => HandleReset(s, k, anchor)
    case Definition(manifestSeq, sourceId) => HandleDefinition(s, k, manifestSeq, sourceId)
    case StrikeInterval(_, strike) => HandleStrike(s, k, strike)
    case SnapshotBegin(h) => s.Put(k, Begin(s.InstFor(k), h))
    case SnapshotLevel(id, level) =>
      if k in s.insts then s.Put(k, InstrumentSpec.Level(s.insts[k], id, level)) else s
    case Boundary => HandleBoundary(s)
    case _ => s
  }

  function PlainEvents(body: Body): seq<Event> {
    match body
    case ResetBook(anchor) => [InstrumentReset(anchor)]
    case Definition(_, _) => [InstrumentDefinition]
    case TradePrint => [Trade]
    case Boundary => [BatchBoundary]
    case _ => []
  }

  ghost predicate HandlesRecord(s: Shard, k: Key, rec: Record, s': Shard, evs: seq<Event>) {
    match rec.body
    case BookDelta(_, _) =>
      exists t :: HandlesDelta(s, k, rec.AsDelta(), t, evs) && s' == Note(t, k, evs)
    case SnapshotEnd(id, anchor) =>
      exists t :: HandlesEnd(s, k, id, anchor, t, evs) && s' == Note(t, k, evs)
    case _ => s' == Plain(s, k, rec.body) && evs == PlainEvents(rec.body)
  }

  /** What one inbox message does: the new state and the events it returns. */
  ghost predicate Handles(s: Shard, m: Message, s': Shard, evs: seq<Event>) {
    match m
    case Rec(rec) => HandlesRecord(s, rec.At(), rec, s', evs)
    case Wipe(ch) => s' == HandleWipe(s, ch) && evs == []
    case Fence => s' == s && evs == []
    case Prune(seqNo) => s' == HandlePrune(s, seqNo) && evs == []
    case ClearShadows => s' == HandleClearShadows(s) && evs == []
  }
}
