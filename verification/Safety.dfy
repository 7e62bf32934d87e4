/** Safety over whole runs of the engine: a serving book is the publisher's book. */
module Safety {
  import opened Wrappers
  import opened Book
  import opened Levels
  import opened InstrumentSpec
  import opened ShardSpec
  import opened ShardInvariant
  import opened CoordinatorSpec
  import opened Publisher
  import opened SeriesSafety
  import opened Leftovers
  import opened Engine

  function Min(a: nat, b: nat): nat {
    if a < b then a else b
  }

  /** A shadow of the group the port is in: it never holds more levels than were
      sent, it is exact when it holds as many, and it does just while nothing of the
      group has been lost. */
  ghost predicate InProgress(x: World, k: Key, sh: Shadow, group: Group) {
    var c, n := x.env.cursor(k.ch), |group.levels|;
    && sh.received <= Min(c.p, n)
    && (sh.received == Min(c.p, n) ==> sh.book == BookOf(group.levels[..sh.received]))
    && (c.p <= n ==> (c.whole <==> sh.received == c.p))
    && (c.whole && c.p <= n ==>
          k.ch in x.coord.open && x.coord.open[k.ch] == OpenGroup(k.id, group.header.id, x.idx))
  }

  /** `sh` was opened by the begin of group `g`, captured in the current series. */
  ghost predicate ShadowFrom(x: World, k: Key, sh: Shadow, g: int) {
    var stream, h := x.env.stream(k.ch), x.env.series(k);
    && 0 <= g <= x.env.cursor(k.ch).g && g < |stream|
    && stream[g].key == k && stream[g].header == sh.header
    && sh.header.anchor >= h.floor && GroupFits(h, stream[g])
    && (g == x.env.cursor(k.ch).g ==> InProgress(x, k, sh, stream[g]))
  }

  /** Every group of `k` still to come was captured in the current series. */
  ghost predicate NothingStaleAhead(x: World, k: Key) {
    var stream := x.env.stream(k.ch);
    forall g: nat :: x.env.cursor(k.ch).g < g < |stream| && stream[g].key == k ==>
      stream[g].header.anchor >= x.env.series(k).floor
  }

  ghost predicate KeySafe(x: World, k: Key) {
    var i, h := x.shard.InstFor(k), x.env.series(k);
    && Sound(h, i)
    && AllFit(h, x.shard.Buf(k))
    && (i.shadow.Some? ==> exists g :: ShadowFrom(x, k, i.shadow.value, g))
    && (i.requiredAnchor.None? ==> NothingStaleAhead(x, k))
  }

  ghost predicate PortOk(x: World, ch: nat) {
    var stream, c := x.env.stream(ch), x.env.cursor(ch);
    && StreamOk(ch, stream)
    && -1 <= c.g < |stream| && (c.g >= 0 ==> c.p <= |stream[c.g].levels| + 1)
    && (ch in x.coord.open && x.coord.shards > 0 ==> x.coord.open[ch].shard == x.coord.open[ch].inst % x.coord.shards)
  }

  ghost predicate Safe(x: World) {
    && x.coord.shards > 0 && x.idx < x.coord.shards
    && Core(x.shard) && InBudget(x.shard)
    && (forall ch :: PortOk(x, ch))
    && (forall k :: x.Mine(k) ==> KeySafe(x, k))
  }

  // ---- what a step leaves alone ----

  /** Buffered deltas of `t` were buffered in `s`, or are in `ds` and buffered for `k`. */
  ghost predicate BufferedFrom(s: Shard, k: Key, ds: seq<Delta>, t: Shard) {
    forall j, d {:trigger d in t.Buf(j)} :: d in t.Buf(j) ==> d in s.Buf(j) || (j == k && d in ds)
  }

  lemma BufferFrom(s: Shard, k: Key, d: Delta, t: Shard)
    requires Core(s) && Buffers(s, k, d, t)
    ensures BufferedFrom(s, k, [d], t)
  {
    assert KeyOk(s, k);
    InsertOk(s.Buf(k), d);
    forall j, x | x in t.Buf(j) ensures x in s.Buf(j) || (j == k && x == d) {
      assert x in Appended(s, k, d).Buf(j);
    }
    assert d in [d];
  }

  lemma BufferedFromBoth(s: Shard, m: Shard, t: Shard, k: Key, ds: seq<Delta>)
    requires ds != [] && BufferedFrom(s, k, [ds[0]], m) && BufferedFrom(m, k, ds[1..], t)
    ensures BufferedFrom(s, k, ds, t)
  {
    forall j, x {:trigger x in t.Buf(j)} | x in t.Buf(j) ensures x in s.Buf(j) || (j == k && x in ds) {
      if x !in m.Buf(j) {
        assert x in ds[1..];
      } else if x !in s.Buf(j) {
        assert x in [ds[0]];
      }
    }
  }

  /** Where buffered deltas come from. */
  lemma {:induction false} BuffersFrom(s: Shard, k: Key, ds: seq<Delta>, t: Shard)
    requires Core(s) && InBudget(s) && (ds != [] && k in s.insts ==> s.insts[k].status != Ready)
    requires BuffersAll(s, k, ds, t)
    ensures BufferedFrom(s, k, ds, t)
    decreases |ds|
  {
    if ds != [] {
      var m :| Buffers(s, k, ds[0], m) && BuffersAll(m, k, ds[1..], t);
      BuffersOk(s, k, ds[0], m);
      BufferFrom(s, k, ds[0], m);
      BuffersFrom(m, k, ds[1..], t);
      BufferedFromBoth(s, m, t, k, ds);
    }
  }

  /** The port did not move on this channel, or moved past a record that is not a
      level a shadow of `k` was still counting on. */
  ghost predicate PortKept(x: World, y: World, k: Key) {
    var c, c', sh := x.env.cursor(k.ch), y.env.cursor(k.ch), x.shard.InstFor(k).shadow;
    && y.env.stream(k.ch) == x.env.stream(k.ch)
    && (if c' == c then
          (k.ch in x.coord.open ==> k.ch in y.coord.open && y.coord.open[k.ch] == x.coord.open[k.ch])
        else
          && Ahead(c, c'.g, c'.p) && c'.g < |x.env.stream(k.ch)|
          && (c'.whole && 0 <= c.g == c'.g && sh.Some?
              ==> x.env.stream(k.ch)[c.g].key != k || x.env.stream(k.ch)[c.g].header != sh.value.header))
  }

  /** A key the step does not address stays safe. */
  lemma Untouched(x: World, y: World, k: Key)
    requires PortOk(x, k.ch) && KeySafe(x, k) && y.idx == x.idx
    requires y.env.series(k) == x.env.series(k) && PortKept(x, y, k)
    requires Aged(x.shard.InstFor(k), y.shard.InstFor(k))
    requires AllFit(x.env.series(k), y.shard.Buf(k))
    ensures KeySafe(y, k)
  {
    var i := x.shard.InstFor(k);
    AgedSound(x.env.series(k), i, y.shard.InstFor(k));
    if i.shadow.Some? {
      var g :| ShadowFrom(x, k, i.shadow.value, g);
      assert ShadowFrom(y, k, i.shadow.value, g);
    }
  }

  /** Buffering for `k` what belongs to its series keeps every key safe. */
  lemma BufferingSafe(x: World, y: World, k: Key, ds: seq<Delta>, j: Key)
    requires Core(x.shard) && InBudget(x.shard)
    requires ds != [] && k in x.shard.insts ==> x.shard.insts[k].status != Ready
    requires PortOk(x, j.ch) && KeySafe(x, j) && y == x.(shard := y.shard)
    requires BuffersAll(x.shard, k, ds, y.shard) && AllFit(x.env.series(k), ds)
    ensures KeySafe(y, j)
  {
    BuffersAllOk(x.shard, k, ds, y.shard);
    BuffersFrom(x.shard, k, ds, y.shard);
    assert j in y.shard.insts ==> Aged(x.shard.InstFor(j), y.shard.insts[j]);
    assert forall d :: d in y.shard.Buf(j) ==> d in x.shard.Buf(j) || (j == k && d in ds);
    Untouched(x, y, j);
  }

  /** Monitoring state is no part of any of this. */
  lemma NotedSafe(x: World, y: World, j: Key)
    requires PortOk(x, j.ch) && KeySafe(x, j) && y.env == x.env && y.coord.open == x.coord.open && y.idx == x.idx
    requires y.shard.insts == x.shard.insts && y.shard.bufs == x.shard.bufs
    ensures KeySafe(y, j)
  {
    Untouched(x, y, j);
  }

  // ---- deltas ----

  lemma ClassifiedSafe(x: World, k: Key, d: Delta, held: seq<Delta>, y: World)
    requires Safe(x) && x.Mine(k) && k in x.shard.insts && x.shard.insts[k].status == Ready
    requires Fits(x.env.series(k), d) && (OfSeries(x.env.series(k), d) || Harmless(x.shard.insts[k], d))
    requires Choice(x.shard.insts[k], d, held)
    requires y == x.(shard := x.shard.Put(k, Classify(x.shard.insts[k], d, held).inst))
    ensures KeySafe(y, k) && AllFit(x.env.series(k), Classify(x.shard.insts[k], d, held).spill)
  {
    var i := x.shard.insts[k];
    assert KeyOk(x.shard, k) && KeySafe(x, k);
    DeliveredSound(x.env.series(k), i, d, held);
    ClassifyOk(i, d, held);
    if i.shadow.Some? {
      var g :| ShadowFrom(x, k, i.shadow.value, g);
      assert ShadowFrom(y, k, i.shadow.value, g);
    }
  }

  lemma DeltaSafe(x: World, k: Key, d: Delta, y: World, evs: seq<Event>, j: Key)
    requires Safe(x) && x.Mine(k) && x.Mine(j)
    requires Fits(x.env.series(k), d)
    requires x.shard.InstFor(k).status == Ready ==> OfSeries(x.env.series(k), d) || Harmless(x.shard.InstFor(k), d)
    requires y == x.(shard := y.shard) && HandlesDelta(x.shard, k, d, y.shard, evs)
    ensures KeySafe(y, j)
  {
    var u, held, spill := DeltaSteps(x.shard, k, d, y.shard, evs);
    var z := x.(shard := u);
    if k in x.shard.insts && x.shard.insts[k].status == Ready {
      ClassifiedSafe(x, k, d, held, z);
    }
    if j != k {
      Untouched(x, z, j);
    }
    BufferingSafe(z, y, k, spill, j);
  }

  // ---- the snapshot port ----

  lemma PortAdvances(x: World, rec: Record, y: World, g: nat, p: nat, ch: nat)
    requires Safe(x) && EnvSnapshot(x.env, rec, y.env, g, p)
    requires y.coord == Noted(x.coord, rec) && y.idx == x.idx
    ensures PortOk(y, ch)
  {
    assert PortOk(x, ch);
  }

  /** Per instrument, a Snapshot ID names one group. */
  lemma SameGroup(x: World, k: Key, g: int, j: int)
    requires PortOk(x, k.ch)
    requires var stream := x.env.stream(k.ch);
             0 <= g < |stream| && 0 <= j < |stream| && stream[g].key == k == stream[j].key &&
             stream[g].header.id == stream[j].header.id
    ensures g == j
  {
  }

  /** A shadow under the header of the group the port is in is that group's. */
  lemma CurrentGroup(x: World, k: Key)
    requires PortOk(x, k.ch) && KeySafe(x, k)
    ensures var c, stream, sh := x.env.cursor(k.ch), x.env.stream(k.ch), x.shard.InstFor(k).shadow;
            0 <= c.g && sh.Some? && stream[c.g].key == k && stream[c.g].header == sh.value.header
            ==> InProgress(x, k, sh.value, stream[c.g])
  {
    var c, stream, sh := x.env.cursor(k.ch), x.env.stream(k.ch), x.shard.InstFor(k).shadow;
    if 0 <= c.g && sh.Some? && stream[c.g].key == k && stream[c.g].header == sh.value.header {
      var g :| ShadowFrom(x, k, sh.value, g);
      SameGroup(x, k, g, c.g);
    }
  }

  /** A record on the port whose shard, if it is this one, leaves `k` as it was. */
  lemma PassedBy(x: World, rec: Record, y: World, g: nat, p: nat, k: Key)
    requires Safe(x) && x.Mine(k) && EnvSnapshot(x.env, rec, y.env, g, p) && y.idx == x.idx
    requires y.coord == Noted(x.coord, rec)
    requires Aged(x.shard.InstFor(k), y.shard.InstFor(k))
    requires forall d :: d in y.shard.Buf(k) ==> d in x.shard.Buf(k)
    requires rec.body.SnapshotLevel? && k.ch == rec.ch && x.shard.InstFor(k).shadow.Some? ==>
               || x.shard.InstFor(k).shadow.value.header.id != rec.body.id
               || rec.ch !in x.coord.open || x.coord.open[rec.ch] != OpenGroup(k.id, rec.body.id, x.idx)
    requires !rec.body.SnapshotLevel? ==> k != rec.At() || x.shard.InstFor(k).shadow.None? || rec.body.SnapshotBegin?
    ensures KeySafe(y, k)
  {
    assert PortOk(x, k.ch) && KeySafe(x, k);
    if k.ch == rec.ch {
      CurrentGroup(x, k);
    }
    Untouched(x, y, k);
  }

  lemma BeginSafe(x: World, rec: Record, y: World, g: nat)
    requires Safe(x) && rec.body.SnapshotBegin? && EnvSnapshot(x.env, rec, y.env, g, 0) && x.Mine(rec.At())
    requires y.coord == Noted(x.coord, rec) && y.idx == x.idx
    requires y.shard == x.shard.Put(rec.At(), Begin(x.shard.InstFor(rec.At()), rec.body.header))
    ensures KeySafe(y, rec.At())
  {
    var k, h := rec.At(), rec.body.header;
    var i := x.shard.InstFor(k);
    assert PortOk(x, k.ch) && KeySafe(x, k);
    if Judge(i, h.anchor, h.last) == Accepted {
      var sh := Shadow(h, 0, EMPTY);
      assert y.shard.InstFor(k).shadow == Some(sh);
      assert h.anchor >= x.env.series(k).floor;
      assert x.env.stream(k.ch)[g].levels[..0] == [];
      assert ShadowFrom(y, k, sh, g);
    } else {
      assert y.shard.InstFor(k) == i;
      PassedBy(x, rec, y, g, 0, k);
    }
  }

  /** A level that reaches the shadow: of the group the port is in, or of one that is
      over and whose end can no longer arrive. */
  lemma LevelAdded(x: World, rec: Record, y: World, g: nat, p: nat, k: Key, sh: Shadow, gi: int)
    requires rec.body.SnapshotLevel? && EnvSnapshot(x.env, rec, y.env, g, p) && rec.ch == k.ch && y.idx == x.idx
    requires ShadowFrom(x, k, sh, gi) && sh.header.id == rec.body.id && x.coord.shards > 0
    requires y.coord == Noted(x.coord, rec) && PortOk(x, k.ch)
    ensures ShadowFrom(y, k, Shadow(sh.header, sh.received + 1, AddLevel(sh.book, rec.body.level)), gi)
  {
    var levels := x.env.stream(rec.ch)[g].levels;
    if gi == g {
      assert levels[..p] == levels[..p - 1] + [levels[p - 1]];
      assert levels[..p][..p - 1] == levels[..p - 1];
    }
  }

  lemma LevelSafe(x: World, rec: Record, y: World, g: nat, p: nat, k: Key)
    requires Safe(x) && rec.body.SnapshotLevel? && EnvSnapshot(x.env, rec, y.env, g, p) && x.Mine(k)
    requires rec.ch in x.coord.open && x.coord.open[rec.ch].id == rec.body.id
    requires k == Key(rec.ch, x.coord.open[rec.ch].inst)
    requires y.coord == Noted(x.coord, rec) && y.idx == x.idx
    requires y.shard == if k in x.shard.insts
                        then x.shard.Put(k, InstrumentSpec.Level(x.shard.insts[k], rec.body.id, rec.body.level))
                        else x.shard
    ensures KeySafe(y, k)
  {
    var i := x.shard.InstFor(k);
    assert PortOk(x, k.ch) && KeySafe(x, k);
    if i.shadow.None? || i.shadow.value.header.id != rec.body.id {
      assert y.shard.InstFor(k) == i;
      PassedBy(x, rec, y, g, p, k);
    } else {
      var gi :| ShadowFrom(x, k, i.shadow.value, gi);
      LevelAdded(x, rec, y, g, p, k, i.shadow.value, gi);
    }
  }

  /** Only the whole group commits: when an end is accepted, every one of its
      levels has been delivered since its begin, and the shadow is their book. */
  lemma CommittedIsWhole(x: World, rec: Record, e': Env, g: nat, p: nat)
    requires Safe(x) && rec.body.SnapshotEnd? && EnvSnapshot(x.env, rec, e', g, p)
    requires x.Mine(rec.At()) && Commits(x.shard.InstFor(rec.At()), rec.body.id, rec.body.anchor)
    ensures var k, group := rec.At(), x.env.stream(rec.ch)[g];
            var sh := x.shard.InstFor(k).shadow.value;
            && group.key == k && sh.header == group.header && sh.book == BookOf(group.levels)
            && sh.header.anchor >= x.env.series(k).floor && GroupFits(x.env.series(k), group)
            && x.env.cursor(rec.ch).g == g && x.env.cursor(rec.ch).p == |group.levels|
  {
    var k, group := rec.At(), x.env.stream(rec.ch)[g];
    assert PortOk(x, k.ch) && KeySafe(x, k);
    var sh := x.shard.InstFor(k).shadow.value;
    var gi :| ShadowFrom(x, k, sh, gi);
    SameGroup(x, k, gi, g);
    assert group.levels[..|group.levels|] == group.levels;
  }

  /** And the whole group does commit: of the groups an instrument opened a shadow
      for, those whose every record was delivered and whose Last Instrument Seq
      reaches the recovery floor. */
  lemma CommitsIffWhole(x: World, rec: Record, e': Env, g: nat, p: nat)
    requires Safe(x) && rec.body.SnapshotEnd? && EnvSnapshot(x.env, rec, e', g, p) && x.Mine(rec.At())
    requires var i := x.shard.InstFor(rec.At());
             i.shadow.Some? && i.shadow.value.header == x.env.stream(rec.ch)[g].header
    ensures var i, header := x.shard.InstFor(rec.At()), x.env.stream(rec.ch)[g].header;
            Commits(i, rec.body.id, rec.body.anchor) <==>
            x.env.cursor(rec.ch) == Cursor(g, header.total, true) &&
            (i.requiredSeq.Some? ==> header.last >= i.requiredSeq.value)
  {
    var k := rec.At();
    assert PortOk(x, k.ch) && KeySafe(x, k);
    var sh := x.shard.InstFor(k).shadow.value;
    var gi :| ShadowFrom(x, k, sh, gi);
    SameGroup(x, k, gi, g);
  }

  lemma CommitSafe(x: World, rec: Record, y: World, g: nat, p: nat, evs: seq<Event>)
    requires Safe(x) && rec.body.SnapshotEnd? && EnvSnapshot(x.env, rec, y.env, g, p) && x.Mine(rec.At())
    requires y.coord == Noted(x.coord, rec) && y.idx == x.idx
    requires HandlesEnd(x.shard, rec.At(), rec.body.id, rec.body.anchor, y.shard, evs)
    requires rec.At() in x.shard.insts && Commits(x.shard.insts[rec.At()], rec.body.id, rec.body.anchor)
    ensures KeySafe(y, rec.At())
  {
    var k := rec.At();
    var i, h := x.shard.insts[k], x.env.series(k);
    assert KeySafe(x, k) && KeyOk(x.shard, k) && PortOk(x, k.ch);
    CommittedIsWhole(x, rec, y.env, g, p);
    CommitSound(h, i);
    EndOk(i, rec.body.id, rec.body.anchor);
    var u, held, o := CommitSteps(x.shard, k, rec.body.id, rec.body.anchor, y.shard, evs);
    ReplaySound(h, Commit(i), x.shard.Buf(k), held);
    ReplayShadow(Commit(i), x.shard.Buf(k), held);
    var z := y.(shard := u);
    TakenSafe(z, k, o.inst);
    PortAdvances(x, rec, z, g, p, k.ch);
    BufferingSafe(z, y, k, o.spill, k);
  }

  lemma TakenSafe(z: World, k: Key, i: Inst)
    requires k in z.shard.insts && z.shard.insts[k] == i && k !in z.shard.bufs
    requires Sound(z.env.series(k), i) && i.shadow.None? && NothingStaleAhead(z, k)
    ensures KeySafe(z, k)
  {
  }

  lemma EndSafe(x: World, rec: Record, y: World, g: nat, p: nat, evs: seq<Event>)
    requires Safe(x) && rec.body.SnapshotEnd? && EnvSnapshot(x.env, rec, y.env, g, p) && x.Mine(rec.At())
    requires y.coord == Noted(x.coord, rec) && y.idx == x.idx
    requires HandlesEnd(x.shard, rec.At(), rec.body.id, rec.body.anchor, y.shard, evs)
    ensures KeySafe(y, rec.At())
  {
    var k := rec.At();
    var i := x.shard.InstFor(k);
    assert KeySafe(x, k);
    if i.shadow.None? {
      PassedBy(x, rec, y, g, p, k);
    } else if Commits(i, rec.body.id, rec.body.anchor) {
      CommitSafe(x, rec, y, g, p, evs);
    } else {
      assert y.shard.InstFor(k) == i.(shadow := None);
    }
  }

  // ---- every step ----

  predicate Delivered(send: Send, idx: nat) {
    send.ToAll? || send.shard == idx
  }

  lemma ReceivesOne(s: Shard, idx: nat, send: Send, t: Shard) returns (evs: seq<Event>)
    requires Receives(s, idx, [send], t)
    ensures if Delivered(send, idx) then Handles(s, send.message, t, evs) else t == s
  {
    evs := [];
    assert [send][1..] == [];
    if Delivered(send, idx) {
      var m, es :| Handles(s, send.message, m, es) && Receives(m, idx, [send][1..], t);
      evs := es;
    }
  }

  /** The shard's own invariant over one routed record. */
  lemma RoutedCore(x: World, rec: Record, y: World)
    requires Safe(x) && Routed(x, rec, y)
    ensures Core(y.shard) && InBudget(y.shard)
  {
    var sends := Sends(x.coord, rec);
    if sends != [] {
      var evs := ReceivesOne(x.shard, x.idx, sends[0], y.shard);
      if Delivered(sends[0], x.idx) {
        CoreKept(x.shard, sends[0].message, y.shard, evs);
      }
    }
  }

  lemma RoutedPorts(x: World, rec: Record, y: World, ch: nat)
    requires Safe(x) && Routed(x, rec, y)
    ensures PortOk(y, ch)
  {
    assert PortOk(x, ch);
    if rec.body.SnapshotBegin? || rec.body.SnapshotLevel? || rec.body.SnapshotEnd? {
      var g, p :| EnvSnapshot(x.env, rec, y.env, g, p);
      PortAdvances(x, rec, y, g, p, ch);
    }
  }

  lemma RoutedDelta(x: World, rec: Record, y: World, j: Key)
    requires Safe(x) && Routed(x, rec, y) && x.Mine(j) && rec.body.BookDelta?
    ensures KeySafe(y, j)
  {
    var k := rec.At();
    assert PortOk(x, j.ch) && KeySafe(x, j);
    var evs := ReceivesOne(x.shard, x.idx, Sends(x.coord, rec)[0], y.shard);
    if x.Mine(k) {
      MyDelta(x, rec, y, evs, j);
    } else {
      Untouched(x, y, j);
    }
  }

  /** Monitoring behind a shard's step. */
  lemma ShardMoves(x: World, z: World, y: World, j: Key)
    requires Safe(x) && z == x.(shard := z.shard) && KeySafe(z, j)
    requires y.env == x.env && y.idx == x.idx && y.coord.open == x.coord.open
    requires y.shard.insts == z.shard.insts && y.shard.bufs == z.shard.bufs
    ensures KeySafe(y, j)
  {
    assert PortOk(x, j.ch);
    assert PortOk(z, j.ch);
    NotedSafe(z, y, j);
  }

  lemma DeltaFits(x: World, rec: Record, e': Env)
    requires x.coord.shards > 0 && rec.body.BookDelta? && x.Mine(rec.At()) && EnvRecord(x, rec, e')
    ensures e' == x.env && Fits(x.env.series(rec.At()), rec.AsDelta())
    ensures x.shard.InstFor(rec.At()).status == Ready ==>
              OfSeries(x.env.series(rec.At()), rec.AsDelta()) || Harmless(x.shard.InstFor(rec.At()), rec.AsDelta())
  {
  }

  lemma MyDelta(x: World, rec: Record, y: World, evs: seq<Event>, j: Key)
    requires Safe(x) && x.Mine(j) && rec.body.BookDelta? && x.Mine(rec.At()) && EnvRecord(x, rec, y.env)
    requires y.coord == Noted(x.coord, rec) && y.idx == x.idx
    requires HandlesRecord(x.shard, rec.At(), rec, y.shard, evs)
    ensures KeySafe(y, j)
  {
    var k, d := rec.At(), rec.AsDelta();
    var t :| HandlesDelta(x.shard, k, d, t, evs) && y.shard == Note(t, k, evs);
    var z := x.(shard := t);
    DeltaFits(x, rec, y.env);
    DeltaSafe(x, k, d, z, evs, j);
    ShardMoves(x, z, y, j);
  }

  lemma RoutedBegin(x: World, rec: Record, y: World, j: Key)
    requires Safe(x) && Routed(x, rec, y) && x.Mine(j) && rec.body.SnapshotBegin?
    ensures KeySafe(y, j)
  {
    var k := rec.At();
    var g, p :| EnvSnapshot(x.env, rec, y.env, g, p);
    var evs := ReceivesOne(x.shard, x.idx, Sends(x.coord, rec)[0], y.shard);
    if j == k {
      BeginSafe(x, rec, y, g);
    } else {
      PassedBy(x, rec, y, g, p, j);
    }
  }

  lemma RoutedLevel(x: World, rec: Record, y: World, j: Key)
    requires Safe(x) && Routed(x, rec, y) && x.Mine(j) && rec.body.SnapshotLevel?
    ensures KeySafe(y, j)
  {
    var g, p :| EnvSnapshot(x.env, rec, y.env, g, p);
    assert PortOk(x, rec.ch);
    var sends := Sends(x.coord, rec);
    if sends == [] {
      PassedBy(x, rec, y, g, p, j);
    } else {
      var evs := ReceivesOne(x.shard, x.idx, sends[0], y.shard);
      var k := Key(rec.ch, x.coord.open[rec.ch].inst);
      if j == k {
        LevelSafe(x, rec, y, g, p, k);
      } else {
        PassedBy(x, rec, y, g, p, j);
      }
    }
  }

  lemma RoutedEnd(x: World, rec: Record, y: World, j: Key)
    requires Safe(x) && Routed(x, rec, y) && x.Mine(j) && rec.body.SnapshotEnd?
    ensures KeySafe(y, j)
  {
    var k := rec.At();
    var g, p :| EnvSnapshot(x.env, rec, y.env, g, p);
    var evs := ReceivesOne(x.shard, x.idx, Sends(x.coord, rec)[0], y.shard);
    if x.Mine(k) {
      MyEnd(x, rec, y, g, p, evs, j);
    } else {
      PassedBy(x, rec, y, g, p, j);
    }
  }

  lemma MyEnd(x: World, rec: Record, y: World, g: nat, p: nat, evs: seq<Event>, j: Key)
    requires Safe(x) && rec.body.SnapshotEnd? && EnvSnapshot(x.env, rec, y.env, g, p)
    requires x.Mine(rec.At()) && x.Mine(j)
    requires y.coord == Noted(x.coord, rec) && y.idx == x.idx
    requires HandlesRecord(x.shard, rec.At(), rec, y.shard, evs)
    ensures KeySafe(y, j)
  {
    var k := rec.At();
    var t :| HandlesEnd(x.shard, k, rec.body.id, rec.body.anchor, t, evs) && y.shard == Note(t, k, evs);
    EndedSafe(x, rec, y, g, p, t, evs, j);
    NotedSafe(y.(shard := t), y, j);
  }

  lemma EndedSafe(x: World, rec: Record, y: World, g: nat, p: nat, t: Shard, evs: seq<Event>, j: Key)
    requires Safe(x) && rec.body.SnapshotEnd? && EnvSnapshot(x.env, rec, y.env, g, p)
    requires x.Mine(rec.At()) && x.Mine(j)
    requires y.coord == Noted(x.coord, rec) && y.idx == x.idx
    requires HandlesEnd(x.shard, rec.At(), rec.body.id, rec.body.anchor, t, evs)
    ensures KeySafe(y.(shard := t), j) && PortOk(y.(shard := t), j.ch)
  {
    var z := y.(shard := t);
    PortAdvances(x, rec, z, g, p, j.ch);
    if j == rec.At() {
      EndSafe(x, rec, z, g, p, evs);
    } else {
      OthersAged(x.shard, rec.At(), rec.body.id, rec.body.anchor, t, evs, j);
      PassedBy(x, rec, z, g, p, j);
    }
  }

  lemma SpillAges(u: Shard, k: Key, ds: seq<Delta>, t: Shard, j: Key)
    requires Core(u) && InBudget(u) && (ds != [] && k in u.insts ==> u.insts[k].status != Ready)
    requires BuffersAll(u, k, ds, t) && j != k
    ensures Aged(u.InstFor(j), t.InstFor(j)) && forall d :: d in t.Buf(j) ==> d in u.Buf(j)
  {
    BuffersAllOk(u, k, ds, t);
    BuffersFrom(u, k, ds, t);
    assert j in t.insts ==> Aged(u.InstFor(j), t.insts[j]);
  }

  /** A SnapshotEnd for `k` can only age another instrument, and take deltas out of
      its buffer. */
  lemma OthersAged(s: Shard, k: Key, id: nat, anchor: nat, t: Shard, evs: seq<Event>, j: Key)
    requires Core(s) && InBudget(s) && HandlesEnd(s, k, id, anchor, t, evs) && j != k
    ensures Aged(s.InstFor(j), t.InstFor(j)) && forall d :: d in t.Buf(j) ==> d in s.Buf(j)
  {
    var u, spill := EndSteps(s, k, id, anchor, t, evs);
    SpillAges(u, k, spill, t, j);
  }

  lemma RoutedReset(x: World, rec: Record, y: World, j: Key)
    requires Safe(x) && Routed(x, rec, y) && x.Mine(j) && rec.body.ResetBook?
    ensures KeySafe(y, j)
  {
    assert PortOk(x, j.ch) && KeySafe(x, j);
    var evs := ReceivesOne(x.shard, x.idx, Sends(x.coord, rec)[0], y.shard);
    if j != rec.At() {
      Untouched(x, y, j);
    }
  }

  lemma RoutedManifest(x: World, rec: Record, y: World, j: Key)
    requires Safe(x) && Routed(x, rec, y) && x.Mine(j) && rec.body.ManifestSummary?
    ensures KeySafe(y, j)
  {
    assert PortOk(x, j.ch) && KeySafe(x, j);
    var sends := Sends(x.coord, rec);
    if sends != [] {
      var evs := ReceivesOne(x.shard, x.idx, sends[0], y.shard);
    }
    if j !in Forgotten(x, rec) {
      Untouched(x, y, j);
    }
  }

  lemma RoutedOther(x: World, rec: Record, y: World, j: Key)
    requires Safe(x) && Routed(x, rec, y) && x.Mine(j)
    requires rec.body.TradePrint? || rec.body.Definition? || rec.body.StrikeInterval? || rec.body.Boundary?
          || rec.body.Heartbeat? || rec.body.EndOfSession?
    ensures KeySafe(y, j)
  {
    assert PortOk(x, j.ch) && KeySafe(x, j);
    var sends := Sends(x.coord, rec);
    if sends != [] {
      var evs := ReceivesOne(x.shard, x.idx, sends[0], y.shard);
    }
    Untouched(x, y, j);
  }

  lemma RoutedSafe(x: World, rec: Record, y: World)
    requires Safe(x) && Routed(x, rec, y)
    ensures Safe(y)
  {
    RoutedCore(x, rec, y);
    forall ch ensures PortOk(y, ch) {
      RoutedPorts(x, rec, y, ch);
    }
    forall j | y.Mine(j) ensures KeySafe(y, j) {
      assert x.Mine(j);
      match rec.body
      case BookDelta(_, _) => RoutedDelta(x, rec, y, j);
      case SnapshotBegin(_) => RoutedBegin(x, rec, y, j);
      case SnapshotLevel(_, _) => RoutedLevel(x, rec, y, j);
      case SnapshotEnd(_, _) => RoutedEnd(x, rec, y, j);
      case ResetBook(_) => RoutedReset(x, rec, y, j);
      case ManifestSummary(_, _) => RoutedManifest(x, rec, y, j);
      case _ => RoutedOther(x, rec, y, j);
    }
  }

  lemma BarrierSafe(x: World, rec: Record, y: World)
    requires Safe(x) && Barrier(x, rec, y)
    ensures Safe(y)
  {
    CoreKept(x.shard, Wipe(rec.ch), y.shard, []);
    forall ch ensures PortOk(y, ch) {
      assert PortOk(x, ch);
    }
    forall j | y.Mine(j) ensures KeySafe(y, j) {
      assert x.Mine(j);
      assert PortOk(x, j.ch) && KeySafe(x, j);
      if j.ch != rec.ch {
        Untouched(x, y, j);
      } else {
        assert j !in y.shard.insts && j !in y.shard.bufs;
      }
    }
  }

  lemma DisconnectSafe(x: World, y: World)
    requires Safe(x) && Disconnects(x, y)
    ensures Safe(y)
  {
    CoreKept(x.shard, ClearShadows, y.shard, []);
    forall ch ensures PortOk(y, ch) {
      assert PortOk(x, ch);
    }
    forall j | y.Mine(j) ensures KeySafe(y, j) {
      assert x.Mine(j) && KeySafe(x, j);
    }
  }

  lemma StepSafe(x: World, y: World)
    requires Safe(x) && Step(x, y)
    ensures Safe(y)
  {
    if Disconnects(x, y) {
      DisconnectSafe(x, y);
    } else {
      var rec :| Dispatches(x, rec, y);
      if NeedsBarrier(x.coord, rec) {
        var w :| Barrier(x, rec, w) && Routed(w, rec, y);
        BarrierSafe(x, rec, w);
        RoutedSafe(w, rec, y);
      } else {
        RoutedSafe(x, rec, y);
      }
    }
  }

  // ---- whole runs ----

  ghost predicate IsRun(run: seq<World>) {
    && run != [] && Initial(run[0])
    && forall n :: 0 <= n < |run| - 1 ==> StepsAt(run, n)
  }

  ghost predicate StepsAt(run: seq<World>, n: nat)
    requires n + 1 < |run|
  {
    run[n].coord.shards > 0 && Step(run[n], run[n + 1])
  }

  lemma InitialSafe(x: World)
    requires Initial(x)
    ensures Safe(x)
  {
    forall ch ensures PortOk(x, ch) {
      assert StreamOk(ch, x.env.stream(ch)) && x.env.cursor(ch) == START;
    }
    forall k ensures KeyOk(x.shard, k) {
    }
    forall k | x.Mine(k) ensures KeySafe(x, k) {
      assert x.env.series(k).floor == 0;
    }
  }

  lemma {:induction false} RunSafe(run: seq<World>, n: nat)
    requires IsRun(run) && n < |run|
    ensures Safe(run[n])
  {
    if n == 0 {
      InitialSafe(run[0]);
    } else {
      RunSafe(run, n - 1);
      assert StepsAt(run, n - 1);
      StepSafe(run[n - 1], run[n]);
    }
  }

  /** Over every run, with deltas lost, duplicated, reordered and malformed, buffers
      evicted, snapshots lost in part, sockets dropped and series reset: an instrument
      that serves has exactly the publisher's book at its last applied seq. */
  lemma ReadyBookIsThePublishers(run: seq<World>, n: nat, k: Key)
    requires IsRun(run) && n < |run| && run[n].coord.shards > 0 && run[n].Mine(k)
    requires k in run[n].shard.insts && run[n].shard.insts[k].status == Ready
    ensures var i, h := run[n].shard.insts[k], run[n].env.series(k);
            i.lastSeq <= |h.steps| && i.book == BookAt(h, i.lastSeq)
  {
    RunSafe(run, n);
    assert KeySafe(run[n], k) && KeyOk(run[n].shard, k);
  }

  /** Price by price and told from the publisher's steps alone: in every reachable state a
      serving instrument shows at a price what the last step up to its tracker to decide
      that price says, or the base level if none does. */
  lemma ReadyLevelIsThePublishers(run: seq<World>, n: nat, k: Key, side: Side, price: Price)
    requires IsRun(run) && n < |run| && run[n].coord.shards > 0 && run[n].Mine(k)
    requires k in run[n].shard.insts && run[n].shard.insts[k].status == Ready
    ensures var i, h := run[n].shard.insts[k], run[n].env.series(k);
            && i.lastSeq <= |h.steps|
            && (forall j: nat :: LastStep(h, i.lastSeq, j, side, price) ==>
                  Standing(i.book, side, price) == Decided(h.steps[j], side, price))
            && ((forall j :: 0 <= j < i.lastSeq ==> !Decides(h.steps[j], side, price)) ==>
                  Standing(i.book, side, price) == Standing(h.base, side, price))
  {
    ReadyBookIsThePublishers(run, n, k);
    SeriesLeaves(run[n].env.series(k), run[n].shard.insts[k].lastSeq, side, price);
  }
}
