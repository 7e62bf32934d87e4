/** Which definitions a shard holds, told from its inbox. */
module RefData {
  import opened Wrappers
  import opened InstrumentSpec
  import opened ShardSpec
  import opened ShardInvariant
  import opened CrossedIndex

  predicate Defines(m: Message, k: Key) {
    m.Rec? && m.rec.At() == k && m.rec.body.Definition?
  }

  predicate Strikes(m: Message, k: Key) {
    m.Rec? && m.rec.At() == k && m.rec.body.StrikeInterval?
  }

  /** The message forgets a definition at `k` of this manifest generation: its channel is
      wiped, or pruned at a generation more than one above. */
  predicate Forgets(m: Message, k: Key, generation: nat) {
    (m.Wipe? && m.ch == k.ch) || (m.Prune? && m.seqNo > generation + 1)
  }

  /** Message `j` is a definition at `k`, none replaced it before `n` and nothing forgot
      it. */
  predicate Stands(inbox: seq<Message>, j: nat, n: nat, k: Key) {
    && j < n <= |inbox| && Defines(inbox[j], k)
    && forall i :: j < i < n ==> !Defines(inbox[i], k) && !Forgets(inbox[i], k, inbox[j].rec.body.manifestSeq)
  }

  /** Message `i` is the last strike at `k` behind `j`. */
  predicate LastStrike(inbox: seq<Message>, j: nat, i: nat, n: nat, k: Key) {
    && j < i < n <= |inbox| && Strikes(inbox[i], k) && forall l :: i < l < n ==> !Strikes(inbox[l], k)
  }

  predicate NoStrike(inbox: seq<Message>, j: nat, n: nat, k: Key)
    requires n <= |inbox|
  {
    forall i :: j < i < n ==> !Strikes(inbox[i], k)
  }

  /** `d` is the definition of message `j` with the last strike behind it. */
  ghost predicate IsDefOf(inbox: seq<Message>, j: nat, n: nat, k: Key, d: Def)
    requires j < n <= |inbox| && Defines(inbox[j], k)
  {
    && d.manifestSeq == inbox[j].rec.body.manifestSeq && d.sourceId == inbox[j].rec.body.sourceId
    && (NoStrike(inbox, j, n, k) ==> d.strike.None?)
    && (forall i: nat :: LastStrike(inbox, j, i, n, k) ==> d.strike == Some(inbox[i].rec.body.strike))
  }

  /** What one message does to the definition at `k`. */
  ghost predicate MovesDef(m: Message, k: Key, s: Shard, t: Shard) {
    if Defines(m, k) then k in t.refdata && t.refdata[k] == Def(m.rec.body.manifestSeq, m.rec.body.sourceId, None)
    else if k !in s.refdata || Forgets(m, k, s.refdata[k].manifestSeq) then k !in t.refdata
    else
      && k in t.refdata
      && t.refdata[k] == if Strikes(m, k) then s.refdata[k].(strike := Some(m.rec.body.strike)) else s.refdata[k]
  }

  lemma DeltaKeepsDefs(s: Shard, k: Key, d: Delta, t: Shard, evs: seq<Event>)
    requires Core(s) && InBudget(s) && HandlesDelta(s, k, d, t, evs)
    ensures t.refdata == s.refdata
  {
    var u, held, spill := DeltaSteps(s, k, d, t, evs);
    BuffersAllOk(u, k, spill, t);
  }

  lemma EndKeepsDefs(s: Shard, k: Key, id: nat, anchor: nat, t: Shard, evs: seq<Event>)
    requires Core(s) && InBudget(s) && HandlesEnd(s, k, id, anchor, t, evs)
    ensures t.refdata == s.refdata
  {
    if k in s.insts && Commits(s.insts[k], id, anchor) {
      var u, held, o := CommitSteps(s, k, id, anchor, t, evs);
      BuffersAllOk(u, k, o.spill, t);
    }
  }

  lemma PlainDefs(s: Shard, rec: Record, k: Key)
    ensures MovesDef(Rec(rec), k, s, Plain(s, rec.At(), rec.body))
  {
  }

  lemma RecordDefs(s: Shard, rec: Record, t: Shard, evs: seq<Event>, k: Key)
    requires Core(s) && InBudget(s) && HandlesRecord(s, rec.At(), rec, t, evs)
    ensures MovesDef(Rec(rec), k, s, t)
  {
    var own := rec.At();
    if rec.body.BookDelta? {
      var u :| HandlesDelta(s, own, rec.AsDelta(), u, evs) && t == Note(u, own, evs);
      DeltaKeepsDefs(s, own, rec.AsDelta(), u, evs);
    } else if rec.body.SnapshotEnd? {
      var u :| HandlesEnd(s, own, rec.body.id, rec.body.anchor, u, evs) && t == Note(u, own, evs);
      EndKeepsDefs(s, own, rec.body.id, rec.body.anchor, u, evs);
    } else {
      PlainDefs(s, rec, k);
    }
  }

  lemma DefStep(s: Shard, m: Message, t: Shard, evs: seq<Event>, k: Key)
    requires Core(s) && InBudget(s) && Handles(s, m, t, evs)
    ensures MovesDef(m, k, s, t)
  {
    if m.Rec? {
      RecordDefs(s, m.rec, t, evs, k);
    }
  }

  lemma StandsOn(inbox: seq<Message>, j: nat, n: nat, k: Key)
    requires n < |inbox|
    ensures j < n ==> (Stands(inbox, j, n + 1, k) <==>
                         Stands(inbox, j, n, k) && !Defines(inbox[n], k) && !Forgets(inbox[n], k, inbox[j].rec.body.manifestSeq))
    ensures Stands(inbox, n, n + 1, k) <==> Defines(inbox[n], k)
  {
  }

  function DefAt(s: Shard, k: Key): Option<Def> {
    if k in s.refdata then Some(s.refdata[k]) else None
  }

  /** `d` is the definition held at `k` before `n`. */
  ghost predicate TellsDef(inbox: seq<Message>, n: nat, k: Key, d: Option<Def>) {
    && (d.Some? <==> exists j: nat :: Stands(inbox, j, n, k))
    && (forall j: nat :: Stands(inbox, j, n, k) ==> d.Some? && IsDefOf(inbox, j, n, k, d.value))
  }

  lemma Redefined(inbox: seq<Message>, n: nat, k: Key)
    requires n < |inbox| && Defines(inbox[n], k)
    ensures TellsDef(inbox, n + 1, k, Some(Def(inbox[n].rec.body.manifestSeq, inbox[n].rec.body.sourceId, None)))
  {
    StandsOn(inbox, n, n, k);
    var next := n + 1;
    forall j: nat | Stands(inbox, j, next, k) ensures j == n {
      StandsOn(inbox, j, n, k);
    }
  }

  lemma Forgotten(inbox: seq<Message>, n: nat, k: Key, d: Option<Def>)
    requires n < |inbox| && !Defines(inbox[n], k) && TellsDef(inbox, n, k, d)
    requires d.Some? ==> Forgets(inbox[n], k, d.value.manifestSeq)
    ensures TellsDef(inbox, n + 1, k, None)
  {
    StandsOn(inbox, n, n, k);
    var next := n + 1;
    if j: nat :| Stands(inbox, j, next, k) {
      StandsOn(inbox, j, n, k);
      assert false;
    }
  }

  lemma Stood(inbox: seq<Message>, n: nat, k: Key, d: Def)
    requires n < |inbox| && !Defines(inbox[n], k) && TellsDef(inbox, n, k, Some(d))
    requires !Forgets(inbox[n], k, d.manifestSeq)
    ensures TellsDef(inbox, n + 1, k, Some(if Strikes(inbox[n], k) then d.(strike := Some(inbox[n].rec.body.strike)) else d))
  {
    var e := if Strikes(inbox[n], k) then d.(strike := Some(inbox[n].rec.body.strike)) else d;
    StandsOn(inbox, n, n, k);
    var next := n + 1;
    forall j: nat | Stands(inbox, j, next, k) ensures IsDefOf(inbox, j, next, k, e) {
      StandsOn(inbox, j, n, k);
      DefStaysOf(inbox, j, n, k, d);
    }
    var j: nat :| Stands(inbox, j, n, k);
    StandsOn(inbox, j, n, k);
  }

  lemma DefStaysOf(inbox: seq<Message>, j: nat, n: nat, k: Key, d: Def)
    requires j < n < |inbox| && Defines(inbox[j], k) && IsDefOf(inbox, j, n, k, d)
    ensures IsDefOf(inbox, j, n + 1, k, if Strikes(inbox[n], k) then d.(strike := Some(inbox[n].rec.body.strike)) else d)
  {
    forall i: nat | LastStrike(inbox, j, i, n + 1, k)
      ensures if Strikes(inbox[n], k) then i == n else LastStrike(inbox, j, i, n, k)
    {
    }
  }

  lemma ToldOn(inbox: seq<Message>, n: nat, k: Key, s: Shard, t: Shard)
    requires n < |inbox| && TellsDef(inbox, n, k, DefAt(s, k)) && MovesDef(inbox[n], k, s, t)
    ensures TellsDef(inbox, n + 1, k, DefAt(t, k))
  {
    if Defines(inbox[n], k) {
      Redefined(inbox, n, k);
    } else if k !in s.refdata || Forgets(inbox[n], k, s.refdata[k].manifestSeq) {
      Forgotten(inbox, n, k, DefAt(s, k));
    } else {
      Stood(inbox, n, k, s.refdata[k]);
    }
  }

  lemma RunStep(states: seq<Shard>, inbox: seq<Message>, events: seq<seq<Event>>, budget: nat, n: nat, k: Key)
    requires IsRun(states, inbox, events, budget) && n < |inbox|
    ensures MovesDef(inbox[n], k, states[n], states[n + 1])
  {
    EveryRun(states, inbox, events, budget, n);
    assert HandlesAt(states, inbox, events, n);
    DefStep(states[n], inbox[n], states[n + 1], events[n], k);
  }

  lemma ToldNext(states: seq<Shard>, inbox: seq<Message>, events: seq<seq<Event>>, budget: nat, n: nat, k: Key)
    requires IsRun(states, inbox, events, budget) && n < |inbox| && TellsDef(inbox, n, k, DefAt(states[n], k))
    ensures TellsDef(inbox, n + 1, k, DefAt(states[n + 1], k))
  {
    RunStep(states, inbox, events, budget, n, k);
    ToldOn(inbox, n, k, states[n], states[n + 1]);
  }

  lemma ToldFirst(inbox: seq<Message>, k: Key, budget: nat)
    ensures TellsDef(inbox, 0, k, DefAt(NewShard(budget), k))
  {
  }

  /** Over any run: a definition is held at `k` exactly when one came, none replaced it,
      its channel was not wiped, and no prune since was more than one generation above
      it. It is then that definition, with the last strike behind it. */
  lemma {:induction false} DefinedExactly(states: seq<Shard>, inbox: seq<Message>, events: seq<seq<Event>>, budget: nat,
                                          n: nat, k: Key)
    requires IsRun(states, inbox, events, budget) && n <= |inbox|
    ensures TellsDef(inbox, n, k, DefAt(states[n], k))
  {
    if n == 0 {
      ToldFirst(inbox, k, budget);
    } else {
      DefinedExactly(states, inbox, events, budget, n - 1, k);
      ToldNext(states, inbox, events, budget, n - 1, k);
    }
  }

  /** A prune takes everything held for an instrument whose definition is more than one
      generation below it, and nothing of any other. */
  lemma PruneTakes(s: Shard, seqNo: nat, t: Shard, evs: seq<Event>, k: Key)
    requires Handles(s, Prune(seqNo), t, evs)
    ensures if k in s.refdata && s.refdata[k].manifestSeq + 1 < seqNo
            then k !in t.refdata && k !in t.insts && k !in t.bufs && k !in t.crossed && k !in t.touched
            else && (k in t.refdata <==> k in s.refdata) && (k in s.refdata ==> t.refdata[k] == s.refdata[k])
                 && (k in t.insts <==> k in s.insts) && (k in s.insts ==> t.insts[k] == s.insts[k])
                 && (k in t.bufs <==> k in s.bufs) && (k in s.bufs ==> t.bufs[k] == s.bufs[k])
                 && (k in t.crossed <==> k in s.crossed) && (k in t.touched <==> k in s.touched)
  {
  }
}
