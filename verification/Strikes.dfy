/** Strike State rule 5 of the Reference Data supplement across the parser and the
    coordinator: a strike is routed exactly when its message directly follows, in the
    same datagram, the definition of the same instrument with the same Source ID. */
module Strikes {
  import opened Wrappers
  import opened ShardSpec
  import opened CoordinatorSpec
  import opened Sharding
  import opened Datagrams
  import opened InstrumentSpec
  import Engine

  predicate Readable(decode: Decoder, d: Datagram) {
    AllDecode(d.messages, decode)
  }

  function Records(decode: Decoder, d: Datagram): seq<Record>
    requires Readable(decode, d)
  {
    RecordsOf(d.header, d.port, decode, d.messages)
  }

  /** The strike record's message directly follows the definition of its instrument
      with its Source ID. This is about the messages of the datagram alone. */
  ghost predicate FollowsItsDefinition(decode: Decoder, d: Datagram, i: nat)
    requires Readable(decode, d) && i < |d.messages|
  {
    var s := Decode(decode, d.messages[i]);
    && i > 0 && s.Decoded? && s.body.StrikeInterval?
    && var p := Decode(decode, d.messages[i - 1]);
       p.Decoded? && p.body.Definition? && p.inst == s.inst && p.body.sourceId == s.body.sourceId
  }

  ghost predicate Routes(c: Coordinator, rec: Record)
    requires c.shards > 0
  {
    exists send :: send in DispatchSends(c, rec) && send == To(c.ShardFor(rec.inst), Rec(rec))
  }

  // ---- records and messages ----

  /** Each record is of one message, indexes rise, and nothing decodable is missing. */
  ghost predicate FromMessages(rs: seq<Record>, decode: Decoder, d: Datagram, n: nat)
    requires Readable(decode, d) && n <= |d.messages|
  {
    && (forall p :: 0 <= p < |rs| ==> IsOf(rs[p], decode, d, n))
    && (forall p, q :: 0 <= p < q < |rs| ==> rs[p].msgIndex < rs[q].msgIndex)
    && (forall i :: 0 <= i < n && Decode(decode, d.messages[i]).Decoded? ==> exists p :: 0 <= p < |rs| && rs[p].msgIndex == i)
  }

  predicate IsOf(rec: Record, decode: Decoder, d: Datagram, n: nat)
    requires Readable(decode, d) && n <= |d.messages|
  {
    rec.msgIndex < n && [rec] == Stamp(d.header, d.port, rec.msgIndex, Decode(decode, d.messages[rec.msgIndex]))
  }

  lemma OfFewer(rec: Record, decode: Decoder, d: Datagram, n: nat)
    requires Readable(decode, d) && 0 < n <= |d.messages| && IsOf(rec, decode, d, n - 1)
    ensures IsOf(rec, decode, d, n)
  {
  }

  lemma OfTheLast(rec: Record, decode: Decoder, d: Datagram, n: nat)
    requires Readable(decode, d) && 0 < n <= |d.messages|
    requires [rec] == Stamp(d.header, d.port, n - 1, Decode(decode, d.messages[n - 1]))
    ensures IsOf(rec, decode, d, n) && rec.msgIndex == n - 1
  {
    assert [rec][0] == rec;
  }

  /** A message without a record adds none. */
  lemma NoMoreRecords(rs: seq<Record>, decode: Decoder, d: Datagram, n: nat)
    requires Readable(decode, d) && 0 < n <= |d.messages| && FromMessages(rs, decode, d, n - 1)
    requires !Decode(decode, d.messages[n - 1]).Decoded?
    ensures FromMessages(rs, decode, d, n)
  {
    forall p | 0 <= p < |rs| ensures IsOf(rs[p], decode, d, n) {
      OfFewer(rs[p], decode, d, n);
    }
  }

  /** A message with a record adds it behind those before. */
  lemma OneMoreRecord(before: seq<Record>, rec: Record, decode: Decoder, d: Datagram, n: nat)
    requires Readable(decode, d) && 0 < n <= |d.messages| && FromMessages(before, decode, d, n - 1)
    requires IsOf(rec, decode, d, n) && rec.msgIndex == n - 1
    ensures FromMessages(before + [rec], decode, d, n)
  {
    var rs := before + [rec];
    forall p | 0 <= p < |rs| ensures IsOf(rs[p], decode, d, n) && (p < |before| ==> rs[p].msgIndex < n - 1) {
      if p < |before| {
        assert IsOf(before[p], decode, d, n - 1);
        OfFewer(before[p], decode, d, n);
      }
    }
    forall i | 0 <= i < n && Decode(decode, d.messages[i]).Decoded? ensures exists p :: 0 <= p < |rs| && rs[p].msgIndex == i {
      if i < n - 1 {
        var p :| 0 <= p < |before| && before[p].msgIndex == i;
        assert rs[p].msgIndex == i;
      } else {
        assert rs[|before|].msgIndex == i;
      }
    }
  }

  /** One more message: its record, if it has one, goes behind those before. */
  lemma OneMoreMessage(before: seq<Record>, rs: seq<Record>, decode: Decoder, d: Datagram, n: nat)
    requires Readable(decode, d) && 0 < n <= |d.messages| && FromMessages(before, decode, d, n - 1)
    requires rs == before + Stamp(d.header, d.port, n - 1, Decode(decode, d.messages[n - 1]))
    ensures FromMessages(rs, decode, d, n)
  {
    var more := Stamp(d.header, d.port, n - 1, Decode(decode, d.messages[n - 1]));
    if more == [] {
      assert rs == before;
      NoMoreRecords(before, decode, d, n);
    } else {
      assert more == [more[0]];
      OfTheLast(more[0], decode, d, n);
      OneMoreRecord(before, more[0], decode, d, n);
    }
  }

  lemma {:induction false} RecordsFromMessages(decode: Decoder, d: Datagram, n: nat)
    requires Readable(decode, d) && n <= |d.messages|
    ensures FromMessages(RecordsOf(d.header, d.port, decode, d.messages[..n]), decode, d, n)
  {
    if n > 0 {
      RecordsFromMessages(decode, d, n - 1);
      assert d.messages[..n][..n - 1] == d.messages[..n - 1];
      OneMoreMessage(RecordsOf(d.header, d.port, decode, d.messages[..n - 1]),
                     RecordsOf(d.header, d.port, decode, d.messages[..n]), decode, d, n);
    }
  }

  /** The message before a record's is a definition exactly when the record before it
      is one of the index before. */
  lemma Neighbours(rs: seq<Record>, decode: Decoder, d: Datagram, p: nat)
    requires Readable(decode, d) && FromMessages(rs, decode, d, |d.messages|) && p < |rs| && rs[p].body.StrikeInterval?
    ensures rs[p].msgIndex < |d.messages|
    ensures FollowsItsDefinition(decode, d, rs[p].msgIndex) <==>
              p > 0 && rs[p - 1].body.Definition? && rs[p - 1].msgIndex + 1 == rs[p].msgIndex &&
              rs[p - 1].inst == rs[p].inst && rs[p - 1].body.sourceId == rs[p].body.sourceId
  {
    assert IsOf(rs[p], decode, d, |d.messages|);
    var i := rs[p].msgIndex;
    if p > 0 {
      assert IsOf(rs[p - 1], decode, d, |d.messages|);
    }
    if i > 0 && Decode(decode, d.messages[i - 1]).Decoded? {
      var q :| 0 <= q < |rs| && rs[q].msgIndex == i - 1;
      assert IsOf(rs[q], decode, d, |d.messages|);
      assert !(q > p) && !(q < p - 1);
      assert q == p - 1;
    }
  }

  // ---- the coordinator ----

  function AsRef(rec: Record): Option<DefinitionRef> {
    if rec.body.Definition?
    then Some(DefinitionRef(rec.ch, rec.port, rec.seqNo, rec.msgIndex, rec.inst, rec.body.sourceId)) else None
  }

  /** What the coordinator remembers of the record before is whether it was a
      definition, whatever barriers it met. */
  lemma RemembersTheLast(c: Coordinator, rec: Record)
    requires c.shards > 0
    ensures Dispatched(c, rec).prevDefinition == AsRef(rec) && Dispatched(c, rec).shards == c.shards
    ensures rec.ch in Dispatched(c, rec).resetCount && Dispatched(c, rec).resetCount[rec.ch] == rec.resetCount
  {
  }

  lemma {:induction false} CoordinatedBoth(c: Coordinator, a: seq<Record>, b: seq<Record>)
    requires c.shards > 0
    ensures Coordinated(c, a + b) == Coordinated(Coordinated(c, a), b)
    decreases |a|
  {
    if a == [] {
      assert a + b == b;
    } else {
      assert (a + b)[1..] == a[1..] + b;
      CoordinatedBoth(Dispatched(c, a[0]), a[1..], b);
    }
  }

  lemma AfterLast(c: Coordinator, recs: seq<Record>)
    requires c.shards > 0 && recs != []
    ensures var x, last := Coordinated(c, recs), recs[|recs| - 1];
            && x.prevDefinition == AsRef(last)
            && last.ch in x.resetCount && x.resetCount[last.ch] == last.resetCount
  {
    var n := |recs| - 1;
    assert recs == recs[..n] + [recs[n]];
    CoordinatedBoth(c, recs[..n], [recs[n]]);
    assert [recs[n]][1..] == [];
    RemembersTheLast(Coordinated(c, recs[..n]), recs[n]);
  }

  /** A strike is routed exactly when the definition remembered is its pair. */
  lemma RoutesIffPairs(c: Coordinator, rec: Record)
    requires c.shards > 0 && rec.body.StrikeInterval?
    requires NeedsBarrier(c, rec) ==> !Pairs(c.prevDefinition, rec)
    ensures Routes(c, rec) <==> Pairs(c.prevDefinition, rec) && c.prevDefinition.value.sourceId == rec.body.sourceId
  {
    if NeedsBarrier(c, rec) {
      assert Sends(AfterBarrier(c, rec), rec) == [];
    } else if Sends(c, rec) != [] {
      assert Sends(c, rec)[0] in DispatchSends(c, rec);
    }
  }

  /** Nothing the coordinator still remembers pairs with a record of `d`. */
  predicate Unpaired(c: Coordinator, rs: seq<Record>) {
    forall p :: 0 <= p < |rs| ==> !Pairs(c.prevDefinition, rs[p])
  }

  lemma OneDatagram(c: Coordinator, decode: Decoder, d: Datagram, p: nat)
    requires c.shards > 0 && Readable(decode, d) && Unpaired(c, Records(decode, d))
    requires p < |Records(decode, d)| && Records(decode, d)[p].body.StrikeInterval?
    ensures Records(decode, d)[p].msgIndex < |d.messages|
    ensures Routes(Coordinated(c, Records(decode, d)[..p]), Records(decode, d)[p]) <==>
              FollowsItsDefinition(decode, d, Records(decode, d)[p].msgIndex)
  {
    var rs := Records(decode, d);
    assert d.messages[..|d.messages|] == d.messages;
    RecordsFromMessages(decode, d, |d.messages|);
    Neighbours(rs, decode, d, p);
    assert IsOf(rs[p], decode, d, |d.messages|);
    var x := Coordinated(c, rs[..p]);
    if p == 0 {
      assert x == c;
    } else {
      assert IsOf(rs[p - 1], decode, d, |d.messages|);
      AfterLast(c, rs[..p]);
    }
    RoutesIffPairs(x, rs[p]);
  }

  // ---- a stream of datagrams ----

  /** Channel, port and sequence number identify a datagram: what arrives twice under
      them is the same. */
  predicate Identified(ds: seq<Datagram>) {
    forall a, b :: 0 <= a < b < |ds| && SameId(ds[a], ds[b]) ==> ds[a] == ds[b]
  }

  predicate SameId(a: Datagram, b: Datagram) {
    a.header.ch == b.header.ch && a.port == b.port && a.header.seqNo == b.header.seqNo
  }

  predicate AllReadable(decode: Decoder, ds: seq<Datagram>) {
    forall d :: d in ds ==> Readable(decode, d)
  }

  function AllRecords(decode: Decoder, ds: seq<Datagram>): seq<Record>
    requires AllReadable(decode, ds)
  {
    if ds == [] then [] else AllRecords(decode, ds[..|ds| - 1]) + Records(decode, ds[|ds| - 1])
  }

  /** The definition remembered, if any, is the last record of some datagram so far. */
  ghost predicate RemembersOne(c: Coordinator, decode: Decoder, ds: seq<Datagram>)
    requires AllReadable(decode, ds)
  {
    c.prevDefinition.Some? ==> exists a :: 0 <= a < |ds| && IsLastOf(c.prevDefinition, decode, ds[a])
  }

  predicate IsLastOf(ref: Option<DefinitionRef>, decode: Decoder, d: Datagram)
    requires Readable(decode, d)
  {
    var rs := Records(decode, d);
    rs != [] && ref == AsRef(rs[|rs| - 1])
  }

  lemma {:induction false} RemembersSome(c: Coordinator, decode: Decoder, ds: seq<Datagram>)
    requires c.shards > 0 && c.prevDefinition.None? && AllReadable(decode, ds)
    ensures RemembersOne(Coordinated(c, AllRecords(decode, ds)), decode, ds)
  {
    if ds != [] {
      var n := |ds| - 1;
      RemembersSome(c, decode, ds[..n]);
      var rs, x := Records(decode, ds[n]), Coordinated(c, AllRecords(decode, ds[..n]));
      CoordinatedBoth(c, AllRecords(decode, ds[..n]), rs);
      if rs != [] {
        AfterLast(x, rs);
        assert IsLastOf(Coordinated(x, rs).prevDefinition, decode, ds[n]);
      } else {
        StillRemembers(x, decode, ds);
      }
    }
  }

  lemma StillRemembers(x: Coordinator, decode: Decoder, ds: seq<Datagram>)
    requires ds != [] && AllReadable(decode, ds) && RemembersOne(x, decode, ds[..|ds| - 1])
    ensures RemembersOne(x, decode, ds)
  {
    var before := ds[..|ds| - 1];
    if x.prevDefinition.Some? {
      var a :| 0 <= a < |before| && IsLastOf(x.prevDefinition, decode, before[a]);
      assert ds[a] == before[a];
    }
  }

  /** Records carry their datagram's identity, and their indexes rise. */
  predicate Tagged(rs: seq<Record>, d: Datagram) {
    && (forall p :: 0 <= p < |rs| ==> rs[p].ch == d.header.ch && rs[p].port == d.port && rs[p].seqNo == d.header.seqNo)
    && (forall p, q :: 0 <= p < q < |rs| ==> rs[p].msgIndex < rs[q].msgIndex)
  }

  lemma RecordsTagged(decode: Decoder, d: Datagram)
    requires Readable(decode, d)
    ensures Tagged(Records(decode, d), d)
  {
    assert d.messages[..|d.messages|] == d.messages;
    RecordsFromMessages(decode, d, |d.messages|);
    var rs := Records(decode, d);
    forall p | 0 <= p < |rs| ensures rs[p].ch == d.header.ch && rs[p].port == d.port && rs[p].seqNo == d.header.seqNo {
      assert IsOf(rs[p], decode, d, |d.messages|);
    }
  }

  /** The last record of a datagram pairs with no record of it, delivered again, nor
      with one of another datagram. */
  lemma LastPairsNothing(olds: seq<Record>, a: Datagram, rs: seq<Record>, d: Datagram)
    requires Tagged(olds, a) && Tagged(rs, d) && olds != [] && (SameId(a, d) ==> olds == rs)
    ensures forall p :: 0 <= p < |rs| ==> !Pairs(AsRef(olds[|olds| - 1]), rs[p])
  {
  }

  /** What the coordinator remembers when a datagram comes in pairs with nothing in it. */
  lemma NothingLeftToPair(c: Coordinator, decode: Decoder, ds: seq<Datagram>, n: nat)
    requires c.shards > 0 && c.prevDefinition.None? && AllReadable(decode, ds) && Identified(ds) && n < |ds|
    ensures Unpaired(Coordinated(c, AllRecords(decode, ds[..n])), Records(decode, ds[n]))
  {
    var x := Coordinated(c, AllRecords(decode, ds[..n]));
    RemembersSome(c, decode, ds[..n]);
    if x.prevDefinition.Some? {
      var a :| 0 <= a < n && IsLastOf(x.prevDefinition, decode, ds[..n][a]);
      assert ds[a] in ds && ds[n] in ds;
      RecordsTagged(decode, ds[a]);
      RecordsTagged(decode, ds[n]);
      LastPairsNothing(Records(decode, ds[a]), ds[a], Records(decode, ds[n]), ds[n]);
    }
  }

  /** Over any stream of datagrams, duplicated or out of order, of any channels, and
      across any resets: each strike is routed exactly when its message directly follows
      the matching definition in its datagram, whatever lies skipped or dropped
      between the records. */
  lemma StrikeRoutedExactly(c: Coordinator, decode: Decoder, ds: seq<Datagram>, n: nat, p: nat)
    requires c.shards > 0 && c.prevDefinition.None? && AllReadable(decode, ds) && Identified(ds) && n < |ds|
    requires p < |Records(decode, ds[n])| && Records(decode, ds[n])[p].body.StrikeInterval?
    ensures var rec := Records(decode, ds[n])[p];
            && rec.msgIndex < |ds[n].messages|
            && (Routes(Coordinated(c, AllRecords(decode, ds[..n]) + Records(decode, ds[n])[..p]), rec) <==>
                FollowsItsDefinition(decode, ds[n], rec.msgIndex))
  {
    NothingLeftToPair(c, decode, ds, n);
    CoordinatedBoth(c, AllRecords(decode, ds[..n]), Records(decode, ds[n])[..p]);
    OneDatagram(Coordinated(c, AllRecords(decode, ds[..n])), decode, ds[n], p);
  }

  // ---- the shard ----

  /** A strike that is routed finds at its shard the very definition it follows, and is
      held on it: nothing the coordinator sends in between can have dropped it. */
  lemma RoutedStrikeIsHeld(c: Coordinator, s: Shard, defined: Record, strike: Record, s1: Shard, s2: Shard)
    requires c.shards > 0 && defined.body.Definition? && strike.body.StrikeInterval?
    requires var idx := c.ShardFor(defined.inst);
             && Engine.Receives(s, idx, DispatchSends(c, defined), s1)
             && Engine.Receives(s1, idx, DispatchSends(Dispatched(c, defined), strike), s2)
    requires Routes(Dispatched(c, defined), strike) && strike.resetCount == defined.resetCount
    ensures strike.At() == defined.At()
    ensures strike.At() in s2.refdata
    ensures s2.refdata[strike.At()] == ShardSpec.Def(defined.body.manifestSeq, defined.body.sourceId, Some(strike.body.strike))
  {
    var idx, x := c.ShardFor(defined.inst), Dispatched(c, defined);
    RemembersTheLast(c, defined);
    assert !NeedsBarrier(x, strike);
    RoutesIffPairs(x, strike);
    var before := DefinitionArrives(c, s, defined, s1);
    var evs := DeliveredOne(s1, idx, Rec(strike), s2);
  }

  lemma DeliveredOne(s: Shard, idx: nat, m: Message, t: Shard) returns (evs: seq<Event>)
    requires Engine.Receives(s, idx, [To(idx, m)], t)
    ensures Handles(s, m, t, evs)
  {
    assert [To(idx, m)][1..] == [];
    var u, es :| Handles(s, m, u, es) && Engine.Receives(u, idx, [To(idx, m)][1..], t);
    evs := es;
  }

  lemma DefinitionArrives(c: Coordinator, s: Shard, defined: Record, s1: Shard) returns (before: Shard)
    requires c.shards > 0 && defined.body.Definition?
    requires Engine.Receives(s, c.ShardFor(defined.inst), DispatchSends(c, defined), s1)
    ensures s1 == HandleDefinition(before, defined.At(), defined.body.manifestSeq, defined.body.sourceId)
  {
    var idx := c.ShardFor(defined.inst);
    if NeedsBarrier(c, defined) {
      var sends := DispatchSends(c, defined);
      assert sends == [ToAll(Wipe(defined.ch)), To(idx, Rec(defined))] && sends[1..] == [To(idx, Rec(defined))];
      var m, es :| Handles(s, sends[0].message, m, es) && Engine.Receives(m, idx, sends[1..], s1);
      before := m;
    } else {
      before := s;
    }
    var evs := DeliveredOne(before, idx, Rec(defined), s1);
  }
}
