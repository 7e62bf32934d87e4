/** The Market-by-Price coordinator as the read loop drives it: channel state and
    the shards' inboxes, updated in place. */
module Coordinators {
  import opened Wrappers
  import opened ShardSpec
  import opened CoordinatorSpec
  import opened Sharding

  /** Two batches of sends are one. */
  lemma SentBoth(x: seq<seq<Message>>, a: seq<Send>, y: seq<seq<Message>>, b: seq<Send>, z: seq<seq<Message>>)
    requires |x| == |y| == |z|
    requires forall i :: 0 <= i < |x| ==> y[i] == x[i] + Project(a, i)
    requires forall i :: 0 <= i < |x| ==> z[i] == y[i] + Project(b, i)
    ensures forall i :: 0 <= i < |x| ==> z[i] == x[i] + Project(a + b, i)
  {
    forall i | 0 <= i < |x| ensures z[i] == x[i] + Project(a + b, i) {
      ProjectBoth(a, b, i);
      Assoc(x[i], Project(a, i), Project(b, i));
    }
  }

  /** Taking the pending definition and noting a first Reset Count come to the same
      before classification as in it. */
  lemma CountNoted(c: Coordinator, d: Coordinator, rec: Record)
    requires c.shards > 0 && !NeedsBarrier(c, rec)
    requires d == c.(prevDefinition := None,
                     resetCount := if rec.ch in c.resetCount then c.resetCount else c.resetCount[rec.ch := rec.resetCount])
    ensures Noted(d, rec) == Dispatched(c, rec)
    ensures Sends(d.(prevDefinition := c.prevDefinition), rec) == DispatchSends(c, rec)
  {
  }

  class LiveCoordinator {
    const n: nat
    var resetCount: map<nat, nat>
    var manifestSeq: nat
    var manifestValid: bool
    var open: map<nat, OpenGroup>
    var prevDefinition: Option<DefinitionRef>
    var inboxes: seq<seq<Message>>

    /** The coordinator's value. */
    ghost function State(): Coordinator
      reads this
    {
      Coordinator(n, resetCount, manifestSeq, manifestValid, open, prevDefinition)
    }

    ghost predicate Valid()
      reads this
    {
      n > 0 && |inboxes| == n && RoutesRight(State())
    }

    /** Every inbox grew by its share of `sent`, in order. */
    twostate predicate Sent(sent: seq<Send>)
      reads this
    {
      && |inboxes| == |old(inboxes)| == n
      && forall i :: 0 <= i < n ==> inboxes[i] == old(inboxes)[i] + Project(sent, i)
    }

    constructor (n: nat)
      requires n > 0
      ensures Valid() && this.n == n && State() == NewCoordinator(n) && inboxes == seq(n, i => [])
    {
      this.n := n;
      resetCount, open := map[], map[];
      manifestSeq, manifestValid := 0, false;
      prevDefinition := None;
      inboxes := seq(n, i => []);
    }

    function ShardFor(inst: nat): (idx: nat)
      reads this
      requires n > 0
      ensures idx < n && idx == State().ShardFor(inst)
    {
      inst % n
    }

    method SendTo(idx: nat, m: Message)
      requires Valid() && idx < n
      modifies this`inboxes
      ensures Valid() && Sent([To(idx, m)])
    {
      inboxes := inboxes[idx := inboxes[idx] + [m]];
      forall i | 0 <= i < n ensures inboxes[i] == old(inboxes)[i] + Project([To(idx, m)], i) {
        ProjectOne(To(idx, m), i);
      }
    }

    /** One message to every shard, inbox by inbox. */
    method SendToAll(m: Message)
      requires Valid()
      modifies this`inboxes
      ensures Valid() && Sent([ToAll(m)])
    {
      for i := 0 to n
        invariant |inboxes| == n
        invariant forall j :: 0 <= j < n ==> inboxes[j] == old(inboxes)[j] + if j < i then [m] else []
      {
        inboxes := inboxes[i := inboxes[i] + [m]];
      }
      forall i | 0 <= i < n ensures inboxes[i] == old(inboxes)[i] + Project([ToAll(m)], i) {
        ProjectOne(ToAll(m), i);
      }
    }

    method RouteInstrument(rec: Record)
      requires Valid()
      modifies this`inboxes
      ensures Valid() && Sent([To(rec.inst % n, Rec(rec))])
    {
      SendTo(ShardFor(rec.inst), Rec(rec));
    }

    /** Record manifest state and, when its seq rises, have every shard prune. */
    method ApplyManifest(newSeq: nat, valid: bool)
      requires Valid()
      modifies this`manifestSeq, this`manifestValid, this`inboxes
      ensures Valid() && manifestSeq == newSeq && manifestValid == valid
      ensures Sent(if !valid || newSeq <= old(manifestSeq) then [] else [ToAll(Prune(newSeq))])
    {
      var prev := manifestSeq;
      manifestSeq, manifestValid := newSeq, valid;
      if !manifestValid || newSeq <= prev {
        return;
      }
      SendToAll(Prune(newSeq));
    }

    /** Drain every shard and wipe the channel; what was held back goes next. */
    method RunResetBarrier(held: Record)
      requires Valid() && prevDefinition.None?
      modifies this
      ensures Valid() && State() == AfterBarrier(old(State()), held) && Sent([ToAll(Wipe(held.ch))])
    {
      SendToAll(Wipe(held.ch));
      open := open - {held.ch};
      manifestSeq, manifestValid := 0, false;
      resetCount := resetCount[held.ch := held.resetCount];
    }

    method Dispatch(rec: Record)
      requires Valid()
      modifies this
      ensures Valid() && State() == Dispatched(old(State()), rec) && Sent(DispatchSends(old(State()), rec))
    {
      var prev := prevDefinition;
      prevDefinition := None;
      if rec.ch in resetCount && resetCount[rec.ch] != rec.resetCount {
        RunResetBarrier(rec);
        ghost var wiped, c := inboxes, State();
        Classify(rec, None);
        SentBoth(old(inboxes), [ToAll(Wipe(rec.ch))], wiped, Sends(c, rec), inboxes);
        return;
      }
      if rec.ch !in resetCount {
        resetCount := resetCount[rec.ch := rec.resetCount];
      }
      CountNoted(old(State()), State(), rec);
      Classify(rec, prev);
    }

    /** Route one record by its type. `prev` is the definition dispatched directly
        before it, if what came before it was one. */
    method Classify(rec: Record, prev: Option<DefinitionRef>)
      requires Valid() && prevDefinition.None? && rec.ch in resetCount
      modifies this
      ensures Valid() && State() == Noted(old(State()), rec)
      ensures Sent(Sends(old(State()).(prevDefinition := prev), rec))
    {
      match rec.body {
        case BookDelta(_, _) => RouteInstrument(rec);
        case ResetBook(_) => RouteInstrument(rec);
        case TradePrint => RouteInstrument(rec);
        case Definition(_, sourceId) =>
          prevDefinition := Some(DefinitionRef(rec.ch, rec.port, rec.seqNo, rec.msgIndex, rec.inst, sourceId));
          RouteInstrument(rec);
        case StrikeInterval(sourceId, _) =>
          if Pairs(prev, rec) && prev.value.sourceId == sourceId {
            RouteInstrument(rec);
          }
        case SnapshotBegin(h) =>
          var idx := ShardFor(rec.inst);
          open := open[rec.ch := OpenGroup(rec.inst, h.id, idx)];
          SendTo(idx, Rec(rec));
        case SnapshotLevel(id, _) =>
          if rec.ch in open && open[rec.ch].id == id {
            SendTo(open[rec.ch].shard, Rec(Stamped(rec, open[rec.ch])));
          }
        case SnapshotEnd(_, _) =>
          RouteInstrument(rec);
          open := open - {rec.ch};
        case Boundary => SendToAll(Rec(rec));
        case Heartbeat =>
        case ManifestSummary(seqNo, valid) => ApplyManifest(seqNo, valid);
        case EndOfSession => SendToAll(Fence);
      }
    }

    /** A socket drop: forget what it invalidates and have every shard drop its
        shadows. */
    method OnDisconnect()
      requires Valid()
      modifies this
      ensures Valid() && State() == Disconnected(old(State())) && Sent(DISCONNECT_SENDS)
    {
      open := map[];
      prevDefinition := None;
      SendToAll(ClearShadows);
    }

    /** The read loop: the inboxes end up with each shard's share of all the sends. */
    method Read(recs: seq<Record>)
      requires Valid()
      modifies this
      ensures Valid() && State() == Coordinated(old(State()), recs) && Sent(AllSends(old(State()), recs))
    {
      ghost var c, boxes := State(), inboxes;
      for j := 0 to |recs|
        invariant Valid() && Coordinated(State(), recs[j..]) == Coordinated(c, recs)
        invariant forall i :: 0 <= i < n ==>
          inboxes[i] + Project(AllSends(State(), recs[j..]), i) == boxes[i] + Project(AllSends(c, recs), i)
      {
        ghost var now, rest, before := State(), recs[j + 1..], inboxes;
        assert recs[j..][0] == recs[j] && recs[j..][1..] == rest;
        Dispatch(recs[j]);
        forall i | 0 <= i < n
          ensures inboxes[i] + Project(AllSends(State(), rest), i) == boxes[i] + Project(AllSends(c, recs), i)
        {
          ProjectBoth(DispatchSends(now, recs[j]), AllSends(State(), rest), i);
          Assoc(before[i], Project(DispatchSends(now, recs[j]), i), Project(AllSends(State(), rest), i));
        }
      }
      forall i | 0 <= i < n ensures inboxes[i] == boxes[i] + Project(AllSends(c, recs), i) {
        assert inboxes[i] + [] == inboxes[i];
      }
    }
  }
}
