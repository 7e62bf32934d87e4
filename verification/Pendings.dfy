/** What the Top-of-Book parser holds after any interleaving, told from the sections its
    goroutines ran: the strike on each definition, and the message pending for each
    unknown instrument. */
module Pendings {
  import opened Wrappers
  import opened T = TopOfBook

  lemma OneMore(h: seq<Act>)
    requires h != []
    ensures var n := |h| - 1; After(h) == Step(After(h[..n]), h[n]) && After(h[..n]).history == h[..n]
  {
    HistoryIs(h[..|h| - 1]);
  }

  // ---- held strikes ----

  /** Section `k` is the last strike emitted for the instrument. */
  predicate LastEmitted(h: seq<Act>, emitted: set<nat>, i: nat, k: nat) {
    && k < |h| && k in emitted && h[k].Strk? && h[k].inst == i
    && forall l :: k < l < |h| && l in emitted && h[l].Strk? ==> h[l].inst != i
  }

  /** No strike was emitted for the instrument since section `n`. */
  predicate NoneEmitted(h: seq<Act>, emitted: set<nat>, i: nat, n: nat) {
    forall l :: n < l < |h| && l in emitted && h[l].Strk? ==> h[l].inst != i
  }

  /** The strike on a definition: of the last one emitted since, if any. */
  ghost predicate StrikeOf(h: seq<Act>, emitted: set<nat>, i: nat, info: Info) {
    && (info.strike.None? <==> NoneEmitted(h, emitted, i, info.def.ref))
    && (forall k: nat :: k > info.def.ref && LastEmitted(h, emitted, i, k) ==> info.strike == Some(h[k].strike))
  }

  ghost predicate StrikesWell(w: World) {
    && (forall k :: k in w.emitted ==> k < |w.history|)
    && (forall i :: i in w.parser.instruments ==>
          w.parser.instruments[i].def.ref < |w.history| &&
          StrikeOf(w.history, w.emitted, i, w.parser.instruments[i]))
  }

  lemma StrikeKept(h: seq<Act>, emitted: set<nat>, a: Act, i: nat, info: Info)
    requires StrikeOf(h, emitted, i, info) && info.def.ref < |h| && |h| !in emitted
    ensures StrikeOf(h + [a], emitted, i, info)
  {
    var all := h + [a];
    assert forall l :: 0 <= l < |h| ==> all[l] == h[l];
    forall k: nat | k > info.def.ref && LastEmitted(all, emitted, i, k) ensures LastEmitted(h, emitted, i, k) {
    }
    assert NoneEmitted(h, emitted, i, info.def.ref) ==> NoneEmitted(all, emitted, i, info.def.ref);
    if NoneEmitted(all, emitted, i, info.def.ref) {
      forall l | info.def.ref < l < |h| && l in emitted && h[l].Strk? ensures h[l].inst != i {
        assert all[l] == h[l];
      }
    }
  }

  lemma StrikeMoved(h: seq<Act>, emitted: set<nat>, a: Act, i: nat, info: Info)
    requires a.Strk? && info.def.ref < |h| && forall k :: k in emitted ==> k < |h|
    ensures a.inst == i ==> StrikeOf(h + [a], emitted + {|h|}, i, info.(strike := Some(a.strike)))
    ensures a.inst != i && StrikeOf(h, emitted, i, info) ==> StrikeOf(h + [a], emitted + {|h|}, i, info)
  {
    var all, more := h + [a], emitted + {|h|};
    assert all[|h|] == a && |h| in more;
    assert forall l :: 0 <= l < |h| ==> all[l] == h[l];
    if a.inst != i && StrikeOf(h, emitted, i, info) {
      StrikeKept(h, emitted, a, i, info);
      forall k: nat | LastEmitted(all, more, i, k) ensures LastEmitted(all, emitted, i, k) {
      }
      if NoneEmitted(all, more, i, info.def.ref) {
        assert forall l :: l in emitted ==> l in more;
      }
    }
  }

  /** A section that emits nothing leaves every definition and strike that it leaves at
      all, but for one it defines. */
  lemma QuietInstruments(w: World, a: Act)
    requires !(a.Strk? && Holds(w.parser, Prev(w, a.t), a.inst, a.sourceId, a.v3))
    ensures Step(w, a).emitted == w.emitted
    ensures var p, q := w.parser.instruments, Step(w, a).parser.instruments;
            forall i :: i in q ==>
              if a.Def? && a.inst == i then q[i] == Info(Definition(|w.history|, i, a.sourceId), None)
              else i in p && q[i] == p[i]
  {
  }

  lemma StepStrikes(w: World, a: Act)
    requires StrikesWell(w)
    ensures StrikesWell(Step(w, a))
  {
    var h, x := w.history, Step(w, a);
    var p, q := w.parser.instruments, x.parser.instruments;
    StepHistory(w, a);
    if a.Strk? && Holds(w.parser, Prev(w, a.t), a.inst, a.sourceId, a.v3) {
      forall i | i in q ensures q[i].def.ref < |x.history| && StrikeOf(x.history, x.emitted, i, q[i]) {
        StrikeMoved(h, w.emitted, a, i, p[i]);
      }
    } else {
      QuietInstruments(w, a);
      forall i | i in q ensures q[i].def.ref < |x.history| && StrikeOf(x.history, x.emitted, i, q[i]) {
        if !(a.Def? && a.inst == i) {
          StrikeKept(h, w.emitted, a, i, p[i]);
        }
      }
    }
  }

  lemma {:induction false} AlwaysStrikes(h: seq<Act>)
    ensures StrikesWell(After(h))
  {
    if h != [] {
      AlwaysStrikes(h[..|h| - 1]);
      OneMore(h);
      StepStrikes(After(h[..|h| - 1]), h[|h| - 1]);
    }
  }

  /** Over any interleaving: an instrument is known exactly when a definition of it was
      neither cleared nor replaced, and carries the strike last emitted since, if any. */
  lemma KnownExactly(h: seq<Act>, i: nat)
    ensures i in After(h).parser.instruments <==> exists n: nat :: Undisturbed(h, n, i) && h[n].Def? && h[n].inst == i
    ensures forall n: nat :: Undisturbed(h, n, i) && h[n].Def? && h[n].inst == i ==>
              && i in After(h).parser.instruments
              && StrikeOf(h, After(h).emitted, i, Info(Definition(n, i, h[n].sourceId), After(h).parser.instruments[i].strike))
  {
    AlwaysAgrees(h);
    AlwaysStrikes(h);
    var w := After(h);
    if i in w.parser.instruments {
      var d := w.parser.instruments[i].def;
      assert HeldFrom(h, d, i);
      assert StrikeOf(h, w.emitted, i, w.parser.instruments[i]);
      assert Undisturbed(h, d.ref, i) && h[d.ref].Def? && h[d.ref].inst == i;
    }
  }

  // ---- pending messages ----

  /** Section `n` is the newest to bring a message of the instrument, and no reset came
      behind it. */
  predicate Newest(h: seq<Act>, i: nat, n: nat) {
    && n < |h| && h[n].Buffer? && h[n].m.inst == i
    && forall k :: n < k < |h| ==> !h[k].Rst? && !(h[k].Buffer? && h[k].m.inst == i)
  }

  /** What one section leaves pending for an instrument: a message it brings, if one was
      pending or there was room; nothing after a reset or, once the instrument is
      known, a flush; else what was pending. */
  lemma PendingStep(h: seq<Act>, a: Act, i: nat)
    ensures var p, q := After(h).parser, After(h + [a]).parser;
            && (i in q.buffer <==>
                  match a
                  case Rst(_) => false
                  case Buffer(_, m) => i in p.buffer || (m.inst == i && |p.buffer| < 1000)
                  case Finish(_) => i in p.buffer && i !in p.instruments
                  case _ => i in p.buffer)
            && (i in q.buffer ==> q.buffer[i] == if a.Buffer? && a.m.inst == i then a.m else p.buffer[i])
            && q.dropped == p.dropped + if a.Buffer? && a.m.inst !in p.buffer && |p.buffer| >= 1000 then 1 else 0
  {
    PendingAlwaysOk(h);
    assert (h + [a])[..|h|] == h;
    OneMore(h + [a]);
    var p, q := After(h).parser, After(h + [a]).parser;
    if a.Finish? && i in p.buffer {
      assert p.buffer[i].inst == i;
      assert i in Ready(p) <==> i in p.instruments;
    }
  }

  lemma NewestMore(h: seq<Act>, a: Act, i: nat, n: nat)
    ensures Newest(h + [a], i, n) <==>
            if n == |h| then a.Buffer? && a.m.inst == i
            else Newest(h, i, n) && !a.Rst? && !(a.Buffer? && a.m.inst == i)
  {
    var all := h + [a];
    assert all[|h|] == a;
    assert forall k :: 0 <= k < |h| ==> all[k] == h[k];
  }

  /** Over any interleaving: what is pending for an instrument is the newest message
      brought for it since the last reset. */
  lemma {:induction false} PendingIsNewest(h: seq<Act>, i: nat)
    requires i in After(h).parser.buffer
    ensures exists n: nat :: Newest(h, i, n) && After(h).parser.buffer[i] == h[n].m
  {
    if h != [] {
      var before, a := h[..|h| - 1], h[|h| - 1];
      assert before + [a] == h;
      PendingStep(before, a, i);
      NewestMore(before, a, i, |before|);
      if a.Buffer? && a.m.inst == i {
        assert Newest(h, i, |before|);
      } else {
        PendingIsNewest(before, i);
        var n: nat :| Newest(before, i, n) && After(before).parser.buffer[i] == before[n].m;
        NewestMore(before, a, i, n);
        assert Newest(h, i, n) && h[n] == before[n];
      }
    }
  }

  /** A message that found a place stays, or a newer one for its instrument does, until a
      reset or the first flush behind its instrument's definition. */
  lemma {:induction false} PendingStays(h: seq<Act>, i: nat, more: seq<Act>)
    requires i in After(h).parser.buffer
    requires forall j :: 0 <= j < |more| ==> !more[j].Rst?
    requires forall j :: 0 <= j < |more| && more[j].Finish? ==> i !in After(h + more[..j]).parser.instruments
    ensures i in After(h + more).parser.buffer
    decreases |more|
  {
    if more == [] {
      assert h + more == h;
    } else {
      var n := |more| - 1;
      forall j | 0 <= j < n && more[..n][j].Finish? ensures i !in After(h + more[..n][..j]).parser.instruments {
        assert more[..n][..j] == more[..j];
      }
      PendingStays(h, i, more[..n]);
      assert h + more == h + more[..n] + [more[n]];
      PendingStep(h + more[..n], more[n], i);
    }
  }
}
