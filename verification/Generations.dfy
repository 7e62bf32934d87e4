/** Update keys that survive a counter restart: a generation above the counter, each
    decoder's own count of the restarts it knows of, and catching up with a newer one.

    One instrument, seen by many decoders whose steps interleave. The publisher's
    counter restarts some number of times, each restart a new era. */
module Generations {
  import opened Wrappers
  import Claims

  type U64 = Claims.U64

  const COUNTERS := 0x1_0000_0000_0000

  type Gen = g: nat | g <= 0xFFFF

  /** The key of a counter that fits: the generation above the counter. */
  function KeyOf(gen: Gen, counter: nat): U64
    requires counter < COUNTERS
  {
    gen * COUNTERS + counter
  }

  function GenOf(key: U64): Gen {
    key / COUNTERS
  }

  /** Keys order by generation, then by counter, and lose neither. */
  lemma KeyOrder(g: Gen, c: nat, h: Gen, d: nat)
    requires c < COUNTERS && d < COUNTERS
    ensures KeyOf(g, c) < KeyOf(h, d) <==> g < h || (g == h && c < d)
    ensures GenOf(KeyOf(g, c)) == g && KeyOf(g, c) % COUNTERS == c
  {
  }

  /** A decoder's view of the instrument: its generation, and the highest counter it
      claimed with in it, plus one. */
  datatype View = View(gen: Gen, last: nat)

  /** The next generation, saturating. */
  function Restarted(v: View): View {
    View(if v.gen == 0xFFFF then v.gen else v.gen + 1, 0)
  }

  predicate Fell(v: View, counter: nat) {
    v.last != 0 && counter + 1 < v.last
  }

  function Saw(v: View, counter: nat): View {
    v.(last := if v.last > counter + 1 then v.last else counter + 1)
  }

  /** The generation a lost claim is to catch up with, if it may. A slot that beat a
      claim is not empty. */
  predicate LostToNewer(v: View, slot: U64) {
    slot > 0 && GenOf(slot - 1) > v.gen
  }

  // ---- decoders in parallel ----

  /** One update as a connection delivers it, and the key it is being claimed under. */
  datatype Attempt = Attempt(era: nat, counter: nat, key: U64, fell: bool)

  /** Between updates, before the load of a claim, past it, or reading what beat it.
      `again` marks the second claim of one update. */
  datatype Pc = Idle | Trying(a: Attempt, again: bool) | Loaded(a: Attempt, again: bool) | Reading(a: Attempt)

  /** The era a connection has reached, and its last counter there, if any. */
  datatype Position = Position(era: nat, at: Option<nat>)

  datatype Decoder = Decoder(view: View, pos: Position, pc: Pc)

  datatype Win = Win(era: nat, counter: nat, key: U64)

  datatype Race = Race(slot: U64, decoders: seq<Decoder>, wins: seq<Win>)

  datatype Act =
    | Restart(d: nat, era: nat)
    | Deliver(d: nat, era: nat, counter: nat)
    | Go(d: nat)

  function Start(n: nat): Race {
    Race(0, seq(n, d => Decoder(View(0, 0), Position(0, None), Idle)), [])
  }

  /** A connection delivers in order: eras never go back, and within one era its
      counters never fall. A decoder that judges a restart does so just before its
      first update of a later era. */
  predicate Enabled(r: Race, restarts: nat, act: Act) {
    && act.d < |r.decoders|
    && var x := r.decoders[act.d];
    match act
    case Restart(_, era) => x.pc.Idle? && x.pos.era < era <= restarts && (x.pos.era > 0 ==> x.pos.at.Some?)
    case Deliver(_, era, counter) =>
      x.pc.Idle? && x.pos.era <= era <= restarts && counter < COUNTERS &&
      (era == x.pos.era && x.pos.at.Some? ==> counter >= x.pos.at.value)
    case Go(_) => !x.pc.Idle?
  }

  function Step(r: Race, act: Act): Race
    requires act.d < |r.decoders|
    requires act.Deliver? ==> act.counter < COUNTERS
  {
    var x := r.decoders[act.d];
    match act
    case Restart(d, era) =>
      r.(decoders := r.decoders[d := Decoder(Restarted(x.view), Position(era, None), Idle)])
    case Deliver(d, era, counter) =>
      var a := Attempt(era, counter, KeyOf(x.view.gen, counter), Fell(x.view, counter));
      r.(decoders := r.decoders[d := Decoder(Saw(x.view, counter), Position(era, Some(counter)), Trying(a, false))])
    case Go(d) => Advance(r, d)
  }

  /** The next atomic step of a claim under way. */
  function Advance(r: Race, d: nat): Race
    requires d < |r.decoders|
  {
    var x := r.decoders[d];
    match x.pc
    case Idle => r
    case Trying(a, again) =>
      if r.slot < Claims.Stored(a.key) then Put(r, d, x.(pc := Loaded(a, again)))
      else Put(r, d, x.(pc := if again then Idle else Reading(a)))
    case Loaded(a, again) =>
      if r.slot < Claims.Stored(a.key) then
        Put(r, d, x.(pc := Idle)).(slot := Claims.Stored(a.key), wins := r.wins + [Win(a.era, a.counter, a.key)])
      else Put(r, d, x.(pc := if again then Idle else Reading(a)))
    case Reading(a) =>
      if LostToNewer(x.view, r.slot) && a.fell && a.counter < COUNTERS then
        var newer := GenOf(r.slot - 1);
        Put(r, d, x.(view := View(newer, a.counter + 1), pc := Trying(a.(key := KeyOf(newer, a.counter)), true)))
      else Put(r, d, x.(pc := Idle))
  }

  function Put(r: Race, d: nat, x: Decoder): Race
    requires d < |r.decoders|
  {
    r.(decoders := r.decoders[d := x])
  }

  ghost predicate Runs(r: Race, restarts: nat, acts: seq<Act>, t: Race)
    decreases |acts|
  {
    if acts == [] then t == r
    else Enabled(r, restarts, acts[0]) && Runs(Step(r, acts[0]), restarts, acts[1..], t)
  }

  // ---- the invariant ----

  /** A decoder never counts more restarts than its connection has passed. Before the
      first restart it has seen no counter fall. */
  predicate DecoderOk(x: Decoder) {
    && x.view.gen <= x.pos.era
    && (x.pos.era == 0 ==> x.view.last <= (if x.pos.at.Some? then x.pos.at.value + 1 else 0))
    && (!x.pc.Idle? ==> AttemptOk(x, x.pc.a))
  }

  predicate AttemptOk(x: Decoder, a: Attempt) {
    && a.era == x.pos.era && a.counter < COUNTERS && a.key == KeyOf(x.view.gen, a.counter)
    && (a.fell ==> a.era >= 1)
  }

  predicate WinOk(w: Win) {
    w.counter < COUNTERS && w.key % COUNTERS == w.counter && GenOf(w.key) <= w.era
  }

  /** Winning keys go up, and the slot holds the last of them. */
  predicate WinsOk(r: Race) {
    && (forall j, k :: 0 <= j < k < |r.wins| ==> Claims.Stored(r.wins[j].key) < Claims.Stored(r.wins[k].key))
    && r.slot == if r.wins == [] then 0 else Claims.Stored(r.wins[|r.wins| - 1].key)
  }

  predicate Good(r: Race, restarts: nat) {
    && (forall d :: 0 <= d < |r.decoders| ==> DecoderOk(r.decoders[d]) && r.decoders[d].pos.era <= restarts)
    && (forall j :: 0 <= j < |r.wins| ==> WinOk(r.wins[j]) && r.wins[j].era <= restarts)
    && WinsOk(r)
  }

  /** The slot's generation is that of a key some update won. */
  lemma SlotGeneration(r: Race, restarts: nat)
    requires Good(r, restarts) && r.slot > 0
    ensures GenOf(r.slot - 1) <= restarts
  {
    var w := r.wins[|r.wins| - 1];
    assert WinOk(w);
  }

  /** A won claim is the new top, of a generation its decoder may have. */
  lemma WonGood(r: Race, restarts: nat, d: nat)
    requires Good(r, restarts) && d < |r.decoders| && r.decoders[d].pc.Loaded?
    requires r.slot < Claims.Stored(r.decoders[d].pc.a.key)
    ensures Good(Advance(r, d), restarts)
  {
    assert DecoderOk(r.decoders[d]);
    var a := r.decoders[d].pc.a;
    KeyOrder(r.decoders[d].view.gen, a.counter, 0, 0);
    assert WinOk(Win(a.era, a.counter, a.key));
  }

  /** Catching up leaves a decoder in a generation its connection has reached. */
  lemma CaughtUpGood(r: Race, restarts: nat, d: nat)
    requires Good(r, restarts) && restarts <= 1 && d < |r.decoders| && r.decoders[d].pc.Reading?
    ensures Good(Advance(r, d), restarts)
  {
    var x := r.decoders[d];
    assert DecoderOk(x);
    if LostToNewer(x.view, r.slot) && x.pc.a.fell {
      SlotGeneration(r, restarts);
    }
  }

  lemma AdvanceGood(r: Race, restarts: nat, d: nat)
    requires Good(r, restarts) && restarts <= 1 && d < |r.decoders|
    ensures Good(Advance(r, d), restarts)
  {
    var x := r.decoders[d];
    if x.pc.Reading? {
      CaughtUpGood(r, restarts, d);
    } else if x.pc.Loaded? && r.slot < Claims.Stored(x.pc.a.key) {
      WonGood(r, restarts, d);
    } else {
      assert DecoderOk(x);
    }
  }

  lemma StepGood(r: Race, restarts: nat, act: Act)
    requires Good(r, restarts) && restarts <= 1 && Enabled(r, restarts, act)
    ensures Good(Step(r, act), restarts)
  {
    assert DecoderOk(r.decoders[act.d]);
    if act.Go? {
      AdvanceGood(r, restarts, act.d);
    }
  }

  lemma {:induction false} RunGood(r: Race, restarts: nat, acts: seq<Act>, t: Race)
    requires Good(r, restarts) && restarts <= 1 && Runs(r, restarts, acts, t)
    ensures Good(t, restarts)
    decreases |acts|
  {
    if acts != [] {
      StepGood(r, restarts, acts[0]);
      RunGood(Step(r, acts[0]), restarts, acts[1..], t);
    }
  }

  // ---- main results ----

  /** With at most one counter restart, no won key carries a generation above its
      counter's true era; so once a key of the new generation has won, nothing from
      before the restart wins again. */
  lemma NoKeyAboveItsEra(n: nat, restarts: nat, acts: seq<Act>, t: Race, k: nat)
    requires restarts <= 1 && Runs(Start(n), restarts, acts, t) && k < |t.wins|
    ensures GenOf(t.wins[k].key) <= t.wins[k].era
    ensures forall j :: 0 <= j < k && GenOf(t.wins[j].key) == 1 ==> t.wins[k].era == 1
  {
    RunGood(Start(n), restarts, acts, t);
    assert WinOk(t.wins[k]);
    forall j | 0 <= j < k && GenOf(t.wins[j].key) == 1 ensures t.wins[k].era == 1 {
      assert t.wins[j].key < t.wins[k].key;
      assert WinOk(t.wins[j]);
    }
  }

  // ---- what a decoder has seen ----

  /** The counters delivered to decoder `d` since its generation last changed. A restart
      it judged forgets them; catching up starts over with the counter at hand. */
  function SeenBy(r: Race, act: Act, d: nat, seen: set<nat>): set<nat>
    requires act.d < |r.decoders| && (act.Deliver? ==> act.counter < COUNTERS)
  {
    if act.d != d then seen
    else
      match act
      case Restart(_, _) => {}
      case Deliver(_, _, counter) => seen + {counter}
      case Go(_) =>
        if Step(r, act).decoders[d].view.gen != r.decoders[d].view.gen then {r.decoders[d].pc.a.counter} else seen
  }

  ghost function SeenAfter(r: Race, restarts: nat, acts: seq<Act>, d: nat, seen: set<nat>): set<nat>
    decreases |acts|
  {
    if acts == [] || !Enabled(r, restarts, acts[0]) then seen
    else SeenAfter(Step(r, acts[0]), restarts, acts[1..], d, SeenBy(r, acts[0], d, seen))
  }

  /** The view holds the highest counter seen, plus one, and an update on its first claim
      fell exactly when a higher one was seen. */
  ghost predicate Recalls(x: Decoder, seen: set<nat>) {
    && (x.view.last == 0 <==> seen == {})
    && (x.view.last > 0 ==> x.view.last - 1 in seen && forall c :: c in seen ==> c <= x.view.last - 1)
    && (OnFirstClaim(x.pc) ==> x.pc.a.counter in seen && (x.pc.a.fell <==> Higher(seen, x.pc.a.counter)))
  }

  ghost predicate Higher(seen: set<nat>, counter: nat) {
    exists c :: c in seen && c > counter
  }

  predicate OnFirstClaim(pc: Pc) {
    pc.Reading? || ((pc.Trying? || pc.Loaded?) && !pc.again)
  }

  lemma DeliverRecalls(v: View, pos: Position, counter: nat, era: nat, seen: set<nat>)
    requires Recalls(Decoder(v, pos, Idle), seen) && counter < COUNTERS
    ensures var a := Attempt(era, counter, KeyOf(v.gen, counter), Fell(v, counter));
            Recalls(Decoder(Saw(v, counter), Position(era, Some(counter)), Trying(a, false)), seen + {counter})
  {
    assert counter in seen + {counter};
    if Fell(v, counter) {
      assert v.last - 1 in seen + {counter};
    }
  }

  lemma StepRecalls(r: Race, restarts: nat, act: Act, d: nat, seen: set<nat>)
    requires d < |r.decoders| && Enabled(r, restarts, act) && Recalls(r.decoders[d], seen)
    ensures Recalls(Step(r, act).decoders[d], SeenBy(r, act, d, seen))
  {
    if act.d == d {
      var x := r.decoders[d];
      match act
      case Restart(_, _) =>
      case Deliver(_, era, counter) => DeliverRecalls(x.view, x.pos, counter, era, seen);
      case Go(_) => GoRecalls(r, d, seen);
    }
  }

  lemma GoRecalls(r: Race, d: nat, seen: set<nat>)
    requires d < |r.decoders| && Recalls(r.decoders[d], seen)
    ensures Recalls(Advance(r, d).decoders[d], SeenBy(r, Go(d), d, seen))
  {
    var x, y := r.decoders[d], Advance(r, d).decoders[d];
    if y.view.gen != x.view.gen {
      assert y.view.last - 1 in {x.pc.a.counter};
    }
  }

  lemma {:induction false} RunRecalls(r: Race, restarts: nat, acts: seq<Act>, t: Race, d: nat, seen: set<nat>)
    requires d < |r.decoders| && Runs(r, restarts, acts, t) && Recalls(r.decoders[d], seen)
    ensures d < |t.decoders| && Recalls(t.decoders[d], SeenAfter(r, restarts, acts, d, seen))
    decreases |acts|
  {
    if acts != [] {
      StepRecalls(r, restarts, acts[0], d, seen);
      RunRecalls(Step(r, acts[0]), restarts, acts[1..], t, d, SeenBy(r, acts[0], d, seen));
    }
  }

  /** A decoder that has lost a claim to a newer generation catches up exactly when, since
      its own generation last changed, it was delivered a higher counter than the one at
      hand; and then it is in the generation that beat it, the true one, with that
      counter as its highest, and claims again. */
  lemma AdoptsTheTrueGeneration(n: nat, restarts: nat, acts: seq<Act>, t: Race, d: nat)
    requires restarts <= 1 && Runs(Start(n), restarts, acts, t)
    requires d < |t.decoders| && t.decoders[d].pc.Reading? && t.slot > 0 && GenOf(t.slot - 1) > t.decoders[d].view.gen
    ensures var x, y, seen := t.decoders[d], Advance(t, d).decoders[d], SeenAfter(Start(n), restarts, acts, d, {});
            && (y.view.gen != x.view.gen <==> Higher(seen, x.pc.a.counter))
            && (y.view.gen != x.view.gen ==>
                  && y.view == View(GenOf(t.slot - 1), x.pc.a.counter + 1) && y.view.gen == x.pos.era
                  && y.pc.Trying? && y.pc.a.key == KeyOf(y.view.gen, x.pc.a.counter))
  {
    RunGood(Start(n), restarts, acts, t);
    StartsWith(n, restarts, acts, t);
    RunRecalls(Start(n), restarts, acts, t, d, {});
    SlotGeneration(t, restarts);
    var x := t.decoders[d];
    assert DecoderOk(x);
    CatchesUp(t, d);
    assert OnFirstClaim(x.pc);
    assert x.pc.a.fell <==> Higher(SeenAfter(Start(n), restarts, acts, d, {}), x.pc.a.counter);
  }

  lemma CatchesUp(r: Race, d: nat)
    requires d < |r.decoders| && r.decoders[d].pc.Reading? && LostToNewer(r.decoders[d].view, r.slot)
    requires r.decoders[d].pc.a.counter < COUNTERS
    ensures var x, y := r.decoders[d], Advance(r, d).decoders[d];
            && (y.view.gen != x.view.gen <==> x.pc.a.fell)
            && (x.pc.a.fell ==>
                  && y.view == View(GenOf(r.slot - 1), x.pc.a.counter + 1)
                  && y.pc.Trying? && y.pc.a.key == KeyOf(y.view.gen, x.pc.a.counter))
  {
  }

  lemma {:induction false} StartsWith(n: nat, restarts: nat, acts: seq<Act>, t: Race)
    requires Runs(Start(n), restarts, acts, t)
    ensures |t.decoders| == n
  {
    KeepsDecoders(Start(n), restarts, acts, t);
  }

  lemma {:induction false} KeepsDecoders(r: Race, restarts: nat, acts: seq<Act>, t: Race)
    requires Runs(r, restarts, acts, t)
    ensures |t.decoders| == |r.decoders|
    decreases |acts|
  {
    if acts != [] {
      KeepsDecoders(Step(r, acts[0]), restarts, acts[1..], t);
    }
  }

  ghost predicate Reachable(n: nat, restarts: nat, t: Race) {
    exists acts :: Runs(Start(n), restarts, acts, t)
  }

  ghost predicate Overstated(r: Race) {
    exists k :: 0 <= k < |r.wins| && GenOf(r.wins[k].key) > r.wins[k].era
  }

  lemma {:induction false} RunsOn(r: Race, restarts: nat, acts: seq<Act>, m: Race, act: Act)
    requires Runs(r, restarts, acts, m) && Enabled(m, restarts, act)
    ensures Runs(r, restarts, acts + [act], Step(m, act))
    decreases |acts|
  {
    if acts == [] {
      assert acts + [act] == [act] && [act][1..] == [];
      assert Runs(Step(r, act), restarts, [], Step(m, act));
    } else {
      assert (acts + [act])[1..] == acts[1..] + [act];
      RunsOn(Step(r, acts[0]), restarts, acts[1..], m, act);
    }
  }

  /** The first decoder judges both restarts, winning (1, 0) and (2, 0). */
  lemma FirstDecoderWins(n: nat, restarts: nat) returns (acts: seq<Act>, t: Race)
    requires n >= 2 && restarts >= 2
    ensures Runs(Start(n), restarts, acts, t)
    ensures |t.decoders| == n && t.decoders[1] == Decoder(View(0, 0), Position(0, None), Idle)
    ensures t.slot == Claims.Stored(KeyOf(2, 0))
  {
    t, acts := Start(n), [];
    RunsOn(Start(n), restarts, acts, t, Restart(0, 1));
    t, acts := Step(t, Restart(0, 1)), acts + [Restart(0, 1)];
    RunsOn(Start(n), restarts, acts, t, Deliver(0, 1, 0));
    t, acts := Step(t, Deliver(0, 1, 0)), acts + [Deliver(0, 1, 0)];
    RunsOn(Start(n), restarts, acts, t, Go(0));
    t, acts := Step(t, Go(0)), acts + [Go(0)];
    assert t.decoders[0].pc == Loaded(Attempt(1, 0, KeyOf(1, 0), false), false);
    RunsOn(Start(n), restarts, acts, t, Go(0));
    t, acts := Step(t, Go(0)), acts + [Go(0)];
    RunsOn(Start(n), restarts, acts, t, Restart(0, 2));
    t, acts := Step(t, Restart(0, 2)), acts + [Restart(0, 2)];
    RunsOn(Start(n), restarts, acts, t, Deliver(0, 2, 0));
    t, acts := Step(t, Deliver(0, 2, 0)), acts + [Deliver(0, 2, 0)];
    RunsOn(Start(n), restarts, acts, t, Go(0));
    t, acts := Step(t, Go(0)), acts + [Go(0)];
    assert t.decoders[0].pc == Loaded(Attempt(2, 0, KeyOf(2, 0), false), false);
    RunsOn(Start(n), restarts, acts, t, Go(0));
    t, acts := Step(t, Go(0)), acts + [Go(0)];
  }

  /** The second, still in generation 0, sees 100 and loses: nothing fell. */
  lemma SecondDecoderLags(n: nat, restarts: nat) returns (acts: seq<Act>, t: Race)
    requires n >= 2 && restarts >= 2
    ensures Runs(Start(n), restarts, acts, t)
    ensures |t.decoders| == n && t.decoders[1] == Decoder(View(0, 101), Position(0, Some(100)), Idle)
    ensures t.slot == Claims.Stored(KeyOf(2, 0))
  {
    acts, t := FirstDecoderWins(n, restarts);
    RunsOn(Start(n), restarts, acts, t, Deliver(1, 0, 100));
    t, acts := Step(t, Deliver(1, 0, 100)), acts + [Deliver(1, 0, 100)];
    RunsOn(Start(n), restarts, acts, t, Go(1));
    t, acts := Step(t, Go(1)), acts + [Go(1)];
    assert t.decoders[1].pc == Reading(Attempt(0, 100, KeyOf(0, 100), false));
    RunsOn(Start(n), restarts, acts, t, Go(1));
    t, acts := Step(t, Go(1)), acts + [Go(1)];
  }

  /** Then 50 of era 1 arrives, a fall: it adopts generation 2 and wins with it. */
  lemma SecondRestartOverstates(n: nat, restarts: nat) returns (acts: seq<Act>, t: Race)
    requires n >= 2 && restarts >= 2
    ensures Runs(Start(n), restarts, acts, t) && Overstated(t)
  {
    acts, t := SecondDecoderLags(n, restarts);
    RunsOn(Start(n), restarts, acts, t, Deliver(1, 1, 50));
    t, acts := Step(t, Deliver(1, 1, 50)), acts + [Deliver(1, 1, 50)];
    RunsOn(Start(n), restarts, acts, t, Go(1));
    t, acts := Step(t, Go(1)), acts + [Go(1)];
    assert t.decoders[1].pc == Reading(Attempt(1, 50, KeyOf(0, 50), true));
    KeyOrder(2, 0, 2, 50);
    RunsOn(Start(n), restarts, acts, t, Go(1));
    t, acts := Step(t, Go(1)), acts + [Go(1)];
    assert t.decoders[1].pc == Trying(Attempt(1, 50, KeyOf(2, 50), true), true);
    RunsOn(Start(n), restarts, acts, t, Go(1));
    t, acts := Step(t, Go(1)), acts + [Go(1)];
    RunsOn(Start(n), restarts, acts, t, Go(1));
    t, acts := Step(t, Go(1)), acts + [Go(1)];
    var k := |t.wins| - 1;
    assert t.wins[k] == Win(1, 50, KeyOf(2, 50)) && GenOf(t.wins[k].key) == 2;
  }

  /** At most one restart is exactly what the scheme needs: from two on, with two
      decoders, some run lets an update of an older era win under a newer generation. */
  lemma OneRestartIsExact(n: nat, restarts: nat)
    requires n >= 2
    ensures restarts <= 1 <==> forall t :: Reachable(n, restarts, t) ==> !Overstated(t)
  {
    if restarts <= 1 {
      forall t | Reachable(n, restarts, t) ensures !Overstated(t) {
        var acts :| Runs(Start(n), restarts, acts, t);
        RunGood(Start(n), restarts, acts, t);
      }
    } else {
      var acts, t := SecondRestartOverstates(n, restarts);
      assert Reachable(n, restarts, t) && Overstated(t);
    }
  }
}
