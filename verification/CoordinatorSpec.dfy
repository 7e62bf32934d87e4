/** The Market-by-Price coordinator as a value: channel-scoped state, and the
    messages each dispatched record sends to the shards. */
module CoordinatorSpec {
  import opened Wrappers
  import opened ShardSpec

  datatype OpenGroup = OpenGroup(inst: nat, id: nat, shard: nat)

  datatype DefinitionRef = DefinitionRef(ch: nat, port: nat, seqNo: nat, msgIndex: nat,
                                         inst: nat, sourceId: nat)

  datatype Coordinator = Coordinator(
    shards: nat,
    resetCount: map<nat, nat>,
    manifestSeq: nat,
    manifestValid: bool,
    open: map<nat, OpenGroup>,
    prevDefinition: Option<DefinitionRef>)
  {
    function ShardFor(inst: nat): nat
      requires shards > 0
    {
      inst % shards
    }
  }

  function NewCoordinator(shards: nat): Coordinator {
    Coordinator(shards, map[], 0, false, map[], None)
  }

  datatype Send = To(shard: nat, message: Message) | ToAll(message: Message)

  /** The strike's message directly follows the definition's in one datagram, for
      the same instrument. */
  predicate Pairs(d: Option<DefinitionRef>, rec: Record) {
    d.Some? && d.value.ch == rec.ch && d.value.port == rec.port && d.value.seqNo == rec.seqNo &&
    rec.msgIndex == d.value.msgIndex + 1 && d.value.inst == rec.inst
  }

  predicate NeedsBarrier(c: Coordinator, rec: Record) {
    rec.ch in c.resetCount && c.resetCount[rec.ch] != rec.resetCount
  }

  function AfterBarrier(c: Coordinator, rec: Record): Coordinator {
    c.(open := c.open - {rec.ch}, manifestSeq := 0, manifestValid := false,
       resetCount := c.resetCount[rec.ch := rec.resetCount], prevDefinition := None)
  }

  function Stamped(rec: Record, g: OpenGroup): Record {
    rec.(inst := g.inst)
  }

  /** The coordinator after a record that meets no barrier. `prev` is the definition
      the record before it was, if it was one. */
  function Noted(c: Coordinator, rec: Record): Coordinator
    requires c.shards > 0
  {
    var c0 := c.(prevDefinition := None,
                 resetCount := if rec.ch in c.resetCount then c.resetCount
                               else c.resetCount[rec.ch := rec.resetCount]);
    match rec.body
    case Definition(_, sourceId) =>
      c0.(prevDefinition := Some(DefinitionRef(rec.ch, rec.port, rec.seqNo, rec.msgIndex, rec.inst, sourceId)))
    case SnapshotBegin(h) => c0.(open := c0.open[rec.ch := OpenGroup(rec.inst, h.id, c.ShardFor(rec.inst))])
    case SnapshotEnd(_, _) => c0.(open := c0.open - {rec.ch})
    case ManifestSummary(seqNo, valid) => c0.(manifestSeq := seqNo, manifestValid := valid)
    case _ => c0
  }

  /** What that record sends. */
  function Sends(c: Coordinator, rec: Record): seq<Send>
    requires c.shards > 0
  {
    match rec.body
    case StrikeInterval(sourceId, _) =>
      if Pairs(c.prevDefinition, rec) && c.prevDefinition.value.sourceId == sourceId
      then [To(c.ShardFor(rec.inst), Rec(rec))] else []
    case SnapshotLevel(id, _) =>
      if rec.ch in c.open && c.open[rec.ch].id == id
      then [To(c.open[rec.ch].shard, Rec(Stamped(rec, c.open[rec.ch])))] else []
    case Boundary => [ToAll(Rec(rec))]
    case Heartbeat => []
    case ManifestSummary(seqNo, valid) => if !valid || seqNo <= c.manifestSeq then [] else [ToAll(Prune(seqNo))]
    case EndOfSession => [ToAll(Fence)]
    case _ => [To(c.ShardFor(rec.inst), Rec(rec))]
  }

  function Dispatched(c: Coordinator, rec: Record): Coordinator
    requires c.shards > 0
  {
    if NeedsBarrier(c, rec) then Noted(AfterBarrier(c, rec), rec) else Noted(c, rec)
  }

  function DispatchSends(c: Coordinator, rec: Record): seq<Send>
    requires c.shards > 0
  {
    if NeedsBarrier(c, rec) then [ToAll(Wipe(rec.ch))] + Sends(AfterBarrier(c, rec), rec)
    else Sends(c, rec)
  }

  function Disconnected(c: Coordinator): Coordinator {
    c.(open := map[], prevDefinition := None)
  }

  const DISCONNECT_SENDS: seq<Send> := [ToAll(ClearShadows)]
}
