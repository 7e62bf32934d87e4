/** The coordinator's memory and what it sends, told from the records it has dispatched. */
module CoordinatorRuns {
  import opened Wrappers
  import opened ShardSpec
  import opened CoordinatorSpec
  import opened Sharding
  import Strikes

  lemma OneMore(c: Coordinator, recs: seq<Record>, n: nat)
    requires c.shards > 0 && n < |recs|
    ensures Coordinated(c, recs[..n + 1]) == Dispatched(Coordinated(c, recs[..n]), recs[n])
  {
    assert recs[..n + 1] == recs[..n] + [recs[n]] && [recs[n]][1..] == [];
    Strikes.CoordinatedBoth(c, recs[..n], [recs[n]]);
  }

  // ---- Reset Counts ----

  /** Record `i` is the last of the channel before `n`. */
  predicate LastOf(recs: seq<Record>, ch: nat, i: nat, n: nat) {
    && i < n <= |recs| && recs[i].ch == ch
    && forall j :: i < j < n ==> recs[j].ch != ch
  }

  predicate NoneOf(recs: seq<Record>, ch: nat, n: nat) {
    n <= |recs| && forall j :: 0 <= j < n ==> recs[j].ch != ch
  }

  /** Record `j` brings its channel a Reset Count other than the last one there. */
  ghost predicate Changes(known: map<nat, nat>, recs: seq<Record>, j: nat) {
    && j < |recs|
    && (|| (exists i: nat :: LastOf(recs, recs[j].ch, i, j) && recs[i].resetCount != recs[j].resetCount)
        || (NoneOf(recs, recs[j].ch, j) && recs[j].ch in known && known[recs[j].ch] != recs[j].resetCount))
  }

  ghost predicate CountKnown(c: Coordinator, recs: seq<Record>, ch: nat, n: nat)
    requires c.shards > 0 && n <= |recs|
  {
    var x := Coordinated(c, recs[..n]);
    && (forall i: nat :: LastOf(recs, ch, i, n) ==> LastCount(x, ch) == Some(recs[i].resetCount))
    && (NoneOf(recs, ch, n) ==> LastCount(x, ch) == LastCount(c, ch))
    && (NoneOf(recs, ch, n) || exists i: nat :: LastOf(recs, ch, i, n))
  }

  lemma {:induction false} CountsAreKnown(c: Coordinator, recs: seq<Record>, ch: nat, n: nat)
    requires c.shards > 0 && n <= |recs|
    ensures CountKnown(c, recs, ch, n)
  {
    if n == 0 {
      assert recs[..0] == [];
    } else {
      CountsAreKnown(c, recs, ch, n - 1);
      OneMore(c, recs, n - 1);
      CountFollows(Coordinated(c, recs[..n - 1]), recs[n - 1], ch);
      if recs[n - 1].ch == ch {
        assert LastOf(recs, ch, n - 1, n);
      } else if !NoneOf(recs, ch, n - 1) {
        var i: nat :| LastOf(recs, ch, i, n - 1);
        assert LastOf(recs, ch, i, n);
      }
    }
  }

  lemma WipeSent(x: Coordinator, rec: Record)
    requires x.shards > 0
    ensures ToAll(Wipe(rec.ch)) in DispatchSends(x, rec) <==> NeedsBarrier(x, rec)
  {
    var sends := DispatchSends(x, rec);
    if NeedsBarrier(x, rec) {
      assert sends[0] == ToAll(Wipe(rec.ch));
    }
  }

  /** A barrier falls before a record exactly when it changes its channel's Reset Count. */
  lemma BarrierExactly(c: Coordinator, recs: seq<Record>, n: nat)
    requires c.shards > 0 && n < |recs|
    ensures NeedsBarrier(Coordinated(c, recs[..n]), recs[n]) <==> Changes(c.resetCount, recs, n)
    ensures ToAll(Wipe(recs[n].ch)) in DispatchSends(Coordinated(c, recs[..n]), recs[n]) <==> Changes(c.resetCount, recs, n)
  {
    var x, ch := Coordinated(c, recs[..n]), recs[n].ch;
    CountsAreKnown(c, recs, ch, n);
    WipeSent(x, recs[n]);
    assert NeedsBarrier(x, recs[n]) <==> LastCount(x, ch).Some? && LastCount(x, ch).value != recs[n].resetCount;
    if i: nat :| LastOf(recs, ch, i, n) {
      assert !NoneOf(recs, ch, n);
    }
  }

  // ---- manifest summaries ----

  /** The record leaves the manifest in force as it is. */
  ghost predicate Quiet(c: Coordinator, recs: seq<Record>, i: nat) {
    i < |recs| && !recs[i].body.ManifestSummary? && !Changes(c.resetCount, recs, i)
  }

  /** Summary `j` is the manifest in force before `n`. A barrier of any channel drops it. */
  ghost predicate InForce(c: Coordinator, recs: seq<Record>, j: nat, n: nat) {
    && j < n <= |recs| && recs[j].body.ManifestSummary?
    && forall i: nat :: j < i < n ==> Quiet(c, recs, i)
  }

  /** Neither a summary nor a barrier so far. */
  ghost predicate Unmoved(c: Coordinator, recs: seq<Record>, n: nat) {
    n <= |recs| && forall i: nat :: i < n ==> Quiet(c, recs, i)
  }

  lemma SummaryStep(x: Coordinator, rec: Record)
    requires x.shards > 0
    ensures Dispatched(x, rec).manifestSeq ==
            if rec.body.ManifestSummary? then rec.body.seqNo else if NeedsBarrier(x, rec) then 0 else x.manifestSeq
  {
  }

  lemma InForceMore(c: Coordinator, recs: seq<Record>, j: nat, n: nat)
    requires n < |recs|
    ensures j < n ==> (InForce(c, recs, j, n + 1) <==> InForce(c, recs, j, n) && Quiet(c, recs, n))
    ensures InForce(c, recs, n, n + 1) <==> recs[n].body.ManifestSummary?
    ensures Unmoved(c, recs, n + 1) <==> Unmoved(c, recs, n) && Quiet(c, recs, n)
  {
  }

  /** `seqNo` is the generation a summary must rise above before `n`. */
  ghost predicate TellsGeneration(c: Coordinator, recs: seq<Record>, n: nat, seqNo: nat) {
    && (forall j: nat :: InForce(c, recs, j, n) ==> seqNo == recs[j].body.seqNo)
    && (Unmoved(c, recs, n) ==> seqNo == c.manifestSeq)
    && (!Unmoved(c, recs, n) && (forall j: nat :: !InForce(c, recs, j, n)) ==> seqNo == 0)
  }

  lemma QuietGeneration(c: Coordinator, recs: seq<Record>, n: nat, seqNo: nat)
    requires n < |recs| && TellsGeneration(c, recs, n, seqNo) && Quiet(c, recs, n)
    ensures TellsGeneration(c, recs, n + 1, seqNo)
  {
    InForceMore(c, recs, n, n);
    forall j: nat | InForce(c, recs, j, n + 1) ensures InForce(c, recs, j, n) {
      InForceMore(c, recs, j, n);
    }
    if j: nat :| InForce(c, recs, j, n) {
      InForceMore(c, recs, j, n);
    }
  }

  lemma MovedGeneration(c: Coordinator, recs: seq<Record>, n: nat)
    requires n < |recs| && !Quiet(c, recs, n)
    ensures TellsGeneration(c, recs, n + 1, if recs[n].body.ManifestSummary? then recs[n].body.seqNo else 0)
  {
    InForceMore(c, recs, n, n);
    var next := n + 1;
    forall j: nat | InForce(c, recs, j, next) ensures j == n {
      InForceMore(c, recs, j, n);
    }
  }

  lemma {:induction false} GenerationInForce(c: Coordinator, recs: seq<Record>, n: nat)
    requires c.shards > 0 && n <= |recs|
    ensures TellsGeneration(c, recs, n, Coordinated(c, recs[..n]).manifestSeq)
  {
    if n == 0 {
      assert recs[..0] == [];
    } else {
      var x := Coordinated(c, recs[..n - 1]);
      GenerationInForce(c, recs, n - 1);
      OneMore(c, recs, n - 1);
      BarrierExactly(c, recs, n - 1);
      SummaryStep(x, recs[n - 1]);
      if Quiet(c, recs, n - 1) {
        QuietGeneration(c, recs, n - 1, x.manifestSeq);
      } else {
        MovedGeneration(c, recs, n - 1);
      }
    }
  }

  /** Whether `seqNo` rises above what is in force before record `n`. */
  ghost predicate Rises(c: Coordinator, recs: seq<Record>, n: nat, seqNo: nat) {
    && seqNo > 0
    && (Changes(c.resetCount, recs, n) ||
        ((forall j: nat :: InForce(c, recs, j, n) ==> seqNo > recs[j].body.seqNo) &&
         (Unmoved(c, recs, n) ==> seqNo > c.manifestSeq)))
  }

  /** Every shard is told to prune exactly by a valid summary that rises above the one in
      force, and at its generation. */
  lemma PrunesExactly(c: Coordinator, recs: seq<Record>, n: nat, seqNo: nat)
    requires c.shards > 0 && n < |recs|
    ensures ToAll(Prune(seqNo)) in DispatchSends(Coordinated(c, recs[..n]), recs[n]) <==>
            recs[n].body == ManifestSummary(seqNo, true) && Rises(c, recs, n, seqNo)
  {
    GenerationInForce(c, recs, n);
    BarrierExactly(c, recs, n);
    PruneSent(Coordinated(c, recs[..n]), recs[n], seqNo);
  }

  lemma PruneSent(x: Coordinator, rec: Record, seqNo: nat)
    requires x.shards > 0
    ensures ToAll(Prune(seqNo)) in DispatchSends(x, rec) <==>
            rec.body == ManifestSummary(seqNo, true) && seqNo > if NeedsBarrier(x, rec) then 0 else x.manifestSeq
  {
    var y := if NeedsBarrier(x, rec) then AfterBarrier(x, rec) else x;
    if rec.body.ManifestSummary? && rec.body.valid && rec.body.seqNo > y.manifestSeq {
      assert Sends(y, rec)[0] == ToAll(Prune(rec.body.seqNo));
      assert ToAll(Prune(rec.body.seqNo)) in DispatchSends(x, rec);
    }
  }

  // ---- the open group ----

  /** Begin `j` opened the group open on the channel before `n`: no other begin, no end
      and no barrier of the channel came behind it. */
  ghost predicate Opens(c: Coordinator, recs: seq<Record>, ch: nat, j: nat, n: nat) {
    && j < n <= |recs| && recs[j].ch == ch && recs[j].body.SnapshotBegin?
    && forall i :: j < i < n && recs[i].ch == ch ==>
         !recs[i].body.SnapshotBegin? && !recs[i].body.SnapshotEnd? && !Changes(c.resetCount, recs, i)
  }

  function GroupOf(c: Coordinator, rec: Record): OpenGroup
    requires c.shards > 0 && rec.body.SnapshotBegin?
  {
    OpenGroup(rec.inst, rec.body.header.id, rec.inst % c.shards)
  }

  lemma OpenStep(c: Coordinator, rec: Record, ch: nat)
    requires c.shards > 0
    ensures var x := Dispatched(c, rec);
            && x.shards == c.shards
            && if rec.ch != ch then (ch in x.open <==> ch in c.open) && (ch in c.open ==> x.open[ch] == c.open[ch])
               else if rec.body.SnapshotBegin? then ch in x.open && x.open[ch] == GroupOf(c, rec)
               else if rec.body.SnapshotEnd? || NeedsBarrier(c, rec) then ch !in x.open
               else (ch in x.open <==> ch in c.open) && (ch in c.open ==> x.open[ch] == c.open[ch])
  {
  }

  /** A begin, an end or a barrier of the channel. */
  ghost predicate Ends(c: Coordinator, recs: seq<Record>, ch: nat, i: nat) {
    i < |recs| && recs[i].ch == ch &&
    (recs[i].body.SnapshotBegin? || recs[i].body.SnapshotEnd? || Changes(c.resetCount, recs, i))
  }

  lemma OpensMore(c: Coordinator, recs: seq<Record>, ch: nat, j: nat, n: nat)
    requires n < |recs|
    ensures j < n ==> (Opens(c, recs, ch, j, n + 1) <==> Opens(c, recs, ch, j, n) && !Ends(c, recs, ch, n))
    ensures Opens(c, recs, ch, n, n + 1) <==> recs[n].ch == ch && recs[n].body.SnapshotBegin?
  {
  }

  function OpenAt(x: Coordinator, ch: nat): Option<OpenGroup> {
    if ch in x.open then Some(x.open[ch]) else None
  }

  /** `g` is the group open on the channel before `n`. */
  ghost predicate TellsOpen(c: Coordinator, recs: seq<Record>, ch: nat, n: nat, g: Option<OpenGroup>)
    requires c.shards > 0
  {
    && (g.Some? <==> exists j: nat :: Opens(c, recs, ch, j, n))
    && (forall j: nat :: Opens(c, recs, ch, j, n) ==> g == Some(GroupOf(c, recs[j])))
  }

  lemma StaysOpen(c: Coordinator, recs: seq<Record>, ch: nat, n: nat, g: Option<OpenGroup>)
    requires c.shards > 0 && n < |recs| && TellsOpen(c, recs, ch, n, g) && !Ends(c, recs, ch, n)
    ensures TellsOpen(c, recs, ch, n + 1, g)
  {
    OpensMore(c, recs, ch, n, n);
    forall j: nat | Opens(c, recs, ch, j, n + 1) ensures Opens(c, recs, ch, j, n) {
      OpensMore(c, recs, ch, j, n);
    }
    if j: nat :| Opens(c, recs, ch, j, n) {
      OpensMore(c, recs, ch, j, n);
    }
  }

  lemma MovesOn(c: Coordinator, recs: seq<Record>, ch: nat, n: nat)
    requires c.shards > 0 && n < |recs| && Ends(c, recs, ch, n)
    ensures TellsOpen(c, recs, ch, n + 1, if recs[n].body.SnapshotBegin? then Some(GroupOf(c, recs[n])) else None)
  {
    OpensMore(c, recs, ch, n, n);
    var next := n + 1;
    forall j: nat | Opens(c, recs, ch, j, next) ensures j == n {
      OpensMore(c, recs, ch, j, n);
    }
  }

  /** Over any records: a group is open on a channel exactly since its last begin, with no
      end and no barrier of the channel behind it. */
  lemma {:induction false} OpenGroupExactly(c: Coordinator, recs: seq<Record>, ch: nat, n: nat)
    requires c.shards > 0 && c.open == map[] && n <= |recs|
    ensures TellsOpen(c, recs, ch, n, OpenAt(Coordinated(c, recs[..n]), ch))
  {
    if n == 0 {
      assert recs[..0] == [];
    } else {
      var x := Coordinated(c, recs[..n - 1]);
      OpenGroupExactly(c, recs, ch, n - 1);
      OneMore(c, recs, n - 1);
      BarrierExactly(c, recs, n - 1);
      OpenStep(x, recs[n - 1], ch);
      if Ends(c, recs, ch, n - 1) {
        MovesOn(c, recs, ch, n - 1);
      } else {
        StaysOpen(c, recs, ch, n - 1, OpenAt(x, ch));
      }
    }
  }

  lemma LevelSent(x: Coordinator, rec: Record, send: Send)
    requires x.shards > 0 && rec.body.SnapshotLevel? && send.To?
    ensures send in DispatchSends(x, rec) <==>
            && !NeedsBarrier(x, rec) && OpenAt(x, rec.ch).Some? && OpenAt(x, rec.ch).value.id == rec.body.id
            && send == To(OpenAt(x, rec.ch).value.shard, Rec(rec.(inst := OpenAt(x, rec.ch).value.inst)))
  {
  }

  /** From a coordinator with no group open, whatever came since: a level is sent on
      exactly when its id is that of the group open on its channel and it brings no
      barrier, and then to that group's instrument, on its shard. */
  lemma LevelSentExactly(c: Coordinator, recs: seq<Record>, n: nat, send: Send)
    requires c.shards > 0 && c.open == map[] && n < |recs| && recs[n].body.SnapshotLevel? && send.To?
    ensures send in DispatchSends(Coordinated(c, recs[..n]), recs[n]) <==>
            && !Changes(c.resetCount, recs, n)
            && exists j: nat :: Opens(c, recs, recs[n].ch, j, n) && recs[j].body.header.id == recs[n].body.id &&
                 send == To(recs[j].inst % c.shards, Rec(recs[n].(inst := recs[j].inst)))
  {
    OpenGroupExactly(c, recs, recs[n].ch, n);
    BarrierExactly(c, recs, n);
    LevelSent(Coordinated(c, recs[..n]), recs[n], send);
  }

  lemma NothingOpened(c: Coordinator, recs: seq<Record>, ch: nat, n: nat)
    requires n <= |recs| && forall i :: 0 <= i < n && recs[i].ch == ch ==> !recs[i].body.SnapshotBegin?
    ensures forall j: nat :: !Opens(c, recs, ch, j, n)
  {
  }

  /** After a socket drop no level is sent on until its channel begins a group again, and a
      strike that comes first is not sent on either. */
  lemma DropForgets(c: Coordinator, recs: seq<Record>, n: nat, send: Send)
    requires c.shards > 0 && n < |recs| && send.To?
    requires if recs[n].body.SnapshotLevel?
             then forall i :: 0 <= i < n && recs[i].ch == recs[n].ch ==> !recs[i].body.SnapshotBegin?
             else recs[n].body.StrikeInterval? && n == 0
    ensures send !in DispatchSends(Coordinated(Disconnected(c), recs[..n]), recs[n])
  {
    if recs[n].body.SnapshotLevel? {
      NothingOpened(Disconnected(c), recs, recs[n].ch, n);
      LevelSentExactly(Disconnected(c), recs, n, send);
    } else {
      assert recs[..0] == [];
    }
  }

  /** A strike that brings a barrier pairs with nothing from before it. */
  lemma NoStrikeAcrossBarriers(c: Coordinator, recs: seq<Record>, n: nat, send: Send)
    requires c.shards > 0 && n < |recs| && recs[n].body.StrikeInterval? && Changes(c.resetCount, recs, n) && send.To?
    ensures send !in DispatchSends(Coordinated(c, recs[..n]), recs[n])
  {
    BarrierExactly(c, recs, n);
  }
}
