/** The whole engine against its publisher: the coordinator, any one of its shards,
    and an environment that loses, duplicates, reorders and corrupts. */
module Engine {
  import opened InstrumentSpec
  import opened ShardSpec
  import opened CoordinatorSpec
  import opened Publisher
  import opened SeriesSafety
  import opened Leftovers

  /** The publisher's side of a run: each instrument's current series, each channel's
      snapshot groups, and how far the snapshot port has delivered. */
  datatype Env = Env(series: Key -> Series, stream: nat -> seq<Group>, cursor: nat -> Cursor)

  /** The coordinator and shard `idx` of its `coord.shards`. */
  datatype World = World(env: Env, coord: Coordinator, idx: nat, shard: Shard)
  {
    ghost predicate Mine(k: Key)
      requires coord.shards > 0
    {
      k.id % coord.shards == idx
    }
  }

  ghost predicate Initial(x: World) {
    && x.coord.shards > 0 && x.idx < x.coord.shards
    && x.coord == NewCoordinator(x.coord.shards)
    && x.shard == NewShard(x.shard.maxBuffered)
    && (forall k :: x.env.series(k).floor == 0)
    && (forall ch :: StreamOk(ch, x.env.stream(ch)) && x.env.cursor(ch) == START)
  }

  // ---- what the environment may do ----

  ghost predicate SameSeriesBut(e: Env, e': Env, ks: iset<Key>) {
    forall k :: k !in ks ==> e'.series(k) == e.series(k)
  }

  ghost predicate SamePortsBut(e: Env, e': Env, chs: iset<nat>) {
    forall ch :: ch !in chs ==> e'.stream(ch) == e.stream(ch) && e'.cursor(ch) == e.cursor(ch)
  }

  /** A Reset Count change: every series and the snapshot port of the channel start
      over. */
  ghost predicate EnvWipe(e: Env, e': Env, ch: nat) {
    && SameSeriesBut(e, e', iset k: Key | k.ch == ch)
    && SamePortsBut(e, e', iset{ch})
    && (forall k: Key :: k.ch == ch ==> e'.series(k).floor == 0)
    && StreamOk(ch, e'.stream(ch)) && e'.cursor(ch) == START
  }

  /** The snapshot port delivers record `p` of group `g`. */
  ghost predicate EnvSnapshot(e: Env, rec: Record, e': Env, g: nat, p: nat) {
    && IsRecord(e.stream(rec.ch), g, p, rec)
    && Ahead(e.cursor(rec.ch), g, p)
    && (p == 0 ==> GroupFits(e.series(rec.At()), e.stream(rec.ch)[g]))
    && SameSeriesBut(e, e', iset{}) && SamePortsBut(e, e', iset{rec.ch})
    && e'.stream(rec.ch) == e.stream(rec.ch)
    && e'.cursor(rec.ch) == Moved(e.cursor(rec.ch), g, p)
  }

  /** The instruments a record makes the shard forget. */
  ghost function Forgotten(x: World, rec: Record): iset<Key>
    requires x.coord.shards > 0
  {
    match rec.body
    case ManifestSummary(seqNo, _) =>
      if Sends(x.coord, rec) == [] || seqNo <= 1 then iset{}
      else iset k | k in OutOfManifest(x.shard, seqNo)
    case _ => iset{}
  }

  /** What a delivered record may be, and what its delivery means for the publisher.
      A delta may be lost, late, duplicated or malformed; one left over from before a
      reset may still arrive, at an instrument that is ready again if it is harmless
      there. A reset starts a new series, which whatever survives in the buffer belongs
      to; nothing of the new series arrives ahead of it. */
  ghost predicate EnvRecord(x: World, rec: Record, e': Env)
    requires x.coord.shards > 0
  {
    var e, k := x.env, rec.At();
    match rec.body
    case BookDelta(_, _) =>
      && e' == e
      && (x.Mine(k) ==>
            && Fits(e.series(k), rec.AsDelta())
            && (x.shard.InstFor(k).status == Ready ==>
                  OfSeries(e.series(k), rec.AsDelta()) || Harmless(x.shard.InstFor(k), rec.AsDelta())))
    case ResetBook(anchor) =>
      && SameSeriesBut(e, e', iset{k}) && SamePortsBut(e, e', iset{})
      && e'.series(k).floor == anchor
      && AllFit(e'.series(k), Newer(x.shard.Buf(k), anchor))
    case ManifestSummary(_, _) =>
      && SameSeriesBut(e, e', Forgotten(x, rec)) && SamePortsBut(e, e', iset{})
      && (forall j :: j in Forgotten(x, rec) ==> e'.series(j).floor == 0)
    case SnapshotBegin(_) => exists g, p :: EnvSnapshot(e, rec, e', g, p)
    case SnapshotLevel(_, _) => exists g, p :: EnvSnapshot(e, rec, e', g, p)
    case SnapshotEnd(_, _) => exists g, p :: EnvSnapshot(e, rec, e', g, p)
    case _ => e' == e
  }

  // ---- what the engine does ----

  ghost predicate Receives(s: Shard, idx: nat, sends: seq<Send>, s': Shard)
    decreases |sends|
  {
    if sends == [] then s' == s
    else if sends[0].To? && sends[0].shard != idx then Receives(s, idx, sends[1..], s')
    else exists m, evs :: Handles(s, sends[0].message, m, evs) && Receives(m, idx, sends[1..], s')
  }

  /** The reset barrier: the wipe reaches every shard before anything else does. */
  ghost predicate Barrier(x: World, rec: Record, y: World) {
    && y.coord == AfterBarrier(x.coord, rec) && y.idx == x.idx
    && y.shard == HandleWipe(x.shard, rec.ch)
    && EnvWipe(x.env, y.env, rec.ch)
  }

  /** Classification and routing of a record that meets no barrier. */
  ghost predicate Routed(x: World, rec: Record, y: World)
    requires x.coord.shards > 0
  {
    && y.coord == Noted(x.coord, rec) && y.idx == x.idx
    && Receives(x.shard, x.idx, Sends(x.coord, rec), y.shard)
    && EnvRecord(x, rec, y.env)
  }

  ghost predicate Dispatches(x: World, rec: Record, y: World)
    requires x.coord.shards > 0
  {
    if NeedsBarrier(x.coord, rec)
    then exists w :: Barrier(x, rec, w) && Routed(w, rec, y)
    else Routed(x, rec, y)
  }

  /** A socket drop: the records of the outage are lost, nothing else changes at the
      publisher. */
  ghost predicate Disconnects(x: World, y: World) {
    && y == x.(coord := Disconnected(x.coord), shard := HandleClearShadows(x.shard))
  }

  ghost predicate Step(x: World, y: World)
    requires x.coord.shards > 0
  {
    Disconnects(x, y) || exists rec :: Dispatches(x, rec, y)
  }
}
