/** The shared claim table and the loop stage behind it, as interleaved atomic steps.

    A decoder's claim is two steps, a load and a fetch_max, with any other decoder's
    steps in between. What it wins it pushes later, or fails to. The loop takes the
    queued events in any order. */
module Claims {

  const U64_MAX := 0xFFFF_FFFF_FFFF_FFFF

  type U64 = n: nat | n <= U64_MAX

  /** Segments of the table's directory, and slots in each. */
  const SEGMENTS := 1024
  const SEGMENT := 4096
  const MAX_TRACKED := SEGMENT * SEGMENTS

  /** A key as a slot holds it: plus one, saturating. */
  function Stored(key: U64): U64 {
    if key == U64_MAX then U64_MAX else key + 1
  }

  datatype Update = Update(inst: nat, key: U64)
  {
    predicate Tracked() {
      inst < MAX_TRACKED
    }
  }

  function Slot(slots: map<nat, U64>, inst: nat): U64 {
    if inst in slots then slots[inst] else 0
  }

  /** A bare fetch_max: what it leaves, and whether it claimed. */
  function FetchMax(slots: map<nat, U64>, u: Update): map<nat, U64> {
    if Slot(slots, u.inst) < Stored(u.key) then slots[u.inst := Stored(u.key)] else slots
  }

  predicate Beats(slots: map<nat, U64>, u: Update) {
    Slot(slots, u.inst) < Stored(u.key)
  }

  /** Where a decoder is: between updates, past the load of a claim, or holding an
      event it claimed and has yet to push. */
  datatype Pc = Idle | Loaded(u: Update) | Holding(u: Update)

  datatype Verdict = Verdict(u: Update, won: bool)

  /** Table, decoders, queue and loop. The rest is history: the verdicts of tracked
      claims in the order of their deciding step, the claims won, and what became of
      them. */
  datatype Sys = Sys(
    slots: map<nat, U64>,
    pcs: seq<Pc>,
    queue: seq<Update>,
    applied: map<nat, U64>,
    verdicts: seq<Verdict>,
    wins: seq<Update>,
    abandoned: set<Update>,
    taken: set<Update>,
    log: seq<Update>)

  datatype Act =
    | Load(t: nat, u: Update)
    | Max(t: nat)
    | Push(t: nat)
    | Abandon(t: nat)
    | Take(j: nat)

  function Start(decoders: nat): Sys {
    Sys(map[], seq(decoders, t => Idle), [], map[], [], [], {}, {}, [])
  }

  predicate Enabled(s: Sys, a: Act) {
    match a
    case Load(t, u) => t < |s.pcs| && s.pcs[t].Idle?
    case Max(t) => t < |s.pcs| && s.pcs[t].Loaded?
    case Push(t) => t < |s.pcs| && s.pcs[t].Holding?
    case Abandon(t) => t < |s.pcs| && s.pcs[t].Holding?
    case Take(j) => j < |s.queue|
  }

  /** One atomic step. An instrument beyond the table always claims and is always
      applied. */
  function Step(s: Sys, a: Act): Sys
    requires Enabled(s, a)
  {
    match a
    case Load(t, u) =>
      if !u.Tracked() then s.(pcs := s.pcs[t := Holding(u)])
      else if Slot(s.slots, u.inst) >= Stored(u.key) then s.(verdicts := s.verdicts + [Verdict(u, false)])
      else s.(pcs := s.pcs[t := Loaded(u)])
    case Max(t) =>
      var u := s.pcs[t].u;
      if Slot(s.slots, u.inst) < Stored(u.key) then
        s.(slots := s.slots[u.inst := Stored(u.key)], pcs := s.pcs[t := Holding(u)],
           verdicts := s.verdicts + [Verdict(u, true)], wins := s.wins + [u])
      else s.(pcs := s.pcs[t := Idle], verdicts := s.verdicts + [Verdict(u, false)])
    case Push(t) => s.(pcs := s.pcs[t := Idle], queue := s.queue + [s.pcs[t].u])
    case Abandon(t) => s.(pcs := s.pcs[t := Idle], abandoned := s.abandoned + {s.pcs[t].u})
    case Take(j) =>
      var u := s.queue[j];
      Judged(s.(queue := s.queue[..j] + s.queue[j + 1..], taken := s.taken + {u}), u)
  }

  /** The loop stage for an event ordered by Supersedes. */
  function Judged(s: Sys, u: Update): Sys {
    if !u.Tracked() then s.(log := s.log + [u])
    else if Slot(s.applied, u.inst) >= Stored(u.key) then s
    else s.(applied := s.applied[u.inst := Stored(u.key)], log := s.log + [u])
  }

  ghost predicate Runs(s: Sys, acts: seq<Act>, t: Sys)
    decreases |acts|
  {
    if acts == [] then t == s
    else Enabled(s, acts[0]) && Runs(Step(s, acts[0]), acts[1..], t)
  }

  // ---- invariants ----

  /** The keys of each tracked instrument only go up. */
  predicate Rising(us: seq<Update>) {
    forall j, k :: 0 <= j < k < |us| && us[j].inst == us[k].inst && us[k].Tracked() ==>
      Stored(us[j].key) < Stored(us[k].key)
  }

  /** `top` bounds the stored keys of `us` per tracked instrument, and is reached. */
  ghost predicate IsTop(top: map<nat, U64>, us: iset<Update>) {
    && (forall u :: u in us && u.Tracked() ==> Stored(u.key) <= Slot(top, u.inst))
    && (forall i :: i in top ==> exists u :: Reaches(u, us, i, top[i]))
  }

  ghost predicate Reaches(u: Update, us: iset<Update>, i: nat, stored: U64) {
    u in us && u.inst == i && u.Tracked() && Stored(u.key) == stored
  }

  ghost function Members(us: seq<Update>): iset<Update> {
    iset u | u in us
  }

  ghost function Among(us: set<Update>): iset<Update> {
    iset u | u in us
  }

  /** Where a claimed event is. */
  ghost predicate Somewhere(s: Sys, u: Update) {
    (exists t :: Holds(s, t, u)) || u in s.queue || u in s.taken || u in s.abandoned
  }

  ghost predicate Holds(s: Sys, t: nat, u: Update) {
    t < |s.pcs| && s.pcs[t] == Holding(u)
  }

  /** Winning keys go up, and the table holds the last of each instrument. */
  ghost predicate TableOk(pcs: seq<Pc>, wins: seq<Update>, slots: map<nat, U64>) {
    && (forall t :: 0 <= t < |pcs| && pcs[t].Loaded? ==> pcs[t].u.Tracked())
    && Rising(wins) && IsTop(slots, Members(wins))
  }

  /** Applied keys go up, and the loop's key of each instrument is the highest it took
      and the last it applied. */
  ghost predicate LoopOk(log: seq<Update>, applied: map<nat, U64>, taken: set<Update>) {
    Rising(log) && IsTop(applied, Members(log)) && IsTop(applied, Among(taken))
  }

  ghost predicate Ordered(s: Sys) {
    TableOk(s.pcs, s.wins, s.slots) && LoopOk(s.log, s.applied, s.taken)
  }

  /** What has been claimed is held, queued, taken or given up, and nothing else is. */
  ghost predicate Accounted(s: Sys) {
    forall u: Update :: u.Tracked() ==> (u in s.wins <==> Somewhere(s, u))
  }

  ghost predicate Good(s: Sys) {
    Ordered(s) && Accounted(s)
  }

  /** Raising one slot to a new key keeps it the top and the order of the history. */
  lemma TopRaised(top: map<nat, U64>, us: seq<Update>, u: Update)
    requires Rising(us) && IsTop(top, Members(us)) && u.Tracked() && Slot(top, u.inst) < Stored(u.key)
    ensures Rising(us + [u]) && IsTop(top[u.inst := Stored(u.key)], Members(us + [u]))
  {
    var more, all := top[u.inst := Stored(u.key)], us + [u];
    forall j, k | 0 <= j < k < |all| && all[j].inst == all[k].inst && all[k].Tracked()
      ensures Stored(all[j].key) < Stored(all[k].key)
    {
      if k == |us| {
        assert us[j] in Members(us);
      }
    }
    forall i | i in more ensures exists v :: Reaches(v, Members(all), i, more[i]) {
      if i == u.inst {
        assert Reaches(u, Members(all), i, more[i]);
      } else {
        var v :| Reaches(v, Members(us), i, top[i]);
        assert Reaches(v, Members(all), i, more[i]);
      }
    }
  }

  lemma TopTaken(top: map<nat, U64>, us: set<Update>, u: Update, more: map<nat, U64>)
    requires IsTop(top, Among(us))
    requires more == if u.Tracked() && Slot(top, u.inst) < Stored(u.key) then top[u.inst := Stored(u.key)] else top
    ensures IsTop(more, Among(us + {u}))
  {
    var all := Among(us + {u});
    forall v | v in all && v.Tracked() ensures Stored(v.key) <= Slot(more, v.inst) {
      assert v == u || v in Among(us);
    }
    forall i | i in more ensures exists v :: Reaches(v, all, i, more[i]) {
      if i in top && more[i] == top[i] {
        var v :| Reaches(v, Among(us), i, top[i]);
        assert Reaches(v, all, i, more[i]);
      } else {
        assert Reaches(u, all, i, more[i]);
      }
    }
  }

  lemma LoggedUntracked(top: map<nat, U64>, us: seq<Update>, u: Update)
    requires Rising(us) && IsTop(top, Members(us)) && !u.Tracked()
    ensures Rising(us + [u]) && IsTop(top, Members(us + [u]))
  {
    forall i | i in top ensures exists v :: Reaches(v, Members(us + [u]), i, top[i]) {
      var v :| Reaches(v, Members(us), i, top[i]);
      assert Reaches(v, Members(us + [u]), i, top[i]);
    }
  }

  /** What judging an update does to the loop's keys and its log. */
  lemma JudgedOrdered(s: Sys, u: Update)
    requires Rising(s.log) && IsTop(s.applied, Members(s.log))
    ensures Rising(Judged(s, u).log) && IsTop(Judged(s, u).applied, Members(Judged(s, u).log))
  {
    if !u.Tracked() {
      LoggedUntracked(s.applied, s.log, u);
    } else if Slot(s.applied, u.inst) < Stored(u.key) {
      TopRaised(s.applied, s.log, u);
    }
  }

  lemma TakeOrdered(s: Sys, j: nat)
    requires Ordered(s) && j < |s.queue|
    ensures Ordered(Step(s, Take(j)))
  {
    var u, t := s.queue[j], Step(s, Take(j));
    var x := s.(queue := s.queue[..j] + s.queue[j + 1..], taken := s.taken + {u});
    assert t == Judged(x, u);
    JudgedOrdered(x, u);
    TopTaken(s.applied, s.taken, u, t.applied);
    assert LoopOk(t.log, t.applied, t.taken);
  }

  lemma TakeAccounted(s: Sys, j: nat)
    requires Accounted(s) && j < |s.queue|
    ensures Accounted(Step(s, Take(j)))
  {
    var t := Step(s, Take(j));
    forall v: Update | v.Tracked() ensures v in t.wins <==> Somewhere(t, v) {
      TakenFrom(s.queue, j, v);
      assert t.pcs == s.pcs;
      assert forall h :: Holds(s, h, v) <==> Holds(t, h, v);
      assert Somewhere(s, v) <==> Somewhere(t, v);
    }
  }

  lemma TakenFrom(queue: seq<Update>, j: nat, v: Update)
    requires j < |queue|
    ensures v in queue <==> v == queue[j] || v in queue[..j] + queue[j + 1..]
  {
    assert queue == queue[..j] + [queue[j]] + queue[j + 1..];
  }

  /** A step of decoder `t` moves what it holds and nothing else. */
  lemma Moved(s: Sys, t: nat, pc: Pc, y: Sys, v: Update)
    requires t < |s.pcs| && y.pcs == s.pcs[t := pc]
    ensures (exists h :: Holds(y, h, v)) <==> pc == Holding(v) || exists h :: h != t && Holds(s, h, v)
    ensures (exists h :: Holds(s, h, v)) <==> s.pcs[t] == Holding(v) || exists h :: h != t && Holds(s, h, v)
  {
    if h :| h != t && Holds(s, h, v) {
      assert Holds(y, h, v);
    }
    if h :| Holds(y, h, v) {
      assert h == t || Holds(s, h, v);
    }
    if pc == Holding(v) {
      assert Holds(y, t, v);
    }
    if s.pcs[t] == Holding(v) {
      assert Holds(s, t, v);
    }
  }

  lemma MaxOrdered(s: Sys, t: nat)
    requires Ordered(s) && Enabled(s, Max(t))
    ensures Ordered(Step(s, Max(t)))
  {
    var y, u := Step(s, Max(t)), s.pcs[t].u;
    if Slot(s.slots, u.inst) < Stored(u.key) {
      TopRaised(s.slots, s.wins, u);
    }
    assert TableOk(y.pcs, y.wins, y.slots);
  }

  lemma StepOrdered(s: Sys, a: Act)
    requires Ordered(s) && Enabled(s, a)
    ensures Ordered(Step(s, a))
  {
    match a
    case Take(j) => TakeOrdered(s, j);
    case Max(t) => MaxOrdered(s, t);
    case _ => QuietOrdered(s, a);
  }

  /** A load, a push or a surrender moves one decoder and neither table nor loop. */
  lemma QuietOrdered(s: Sys, a: Act)
    requires Ordered(s) && Enabled(s, a) && !a.Take? && !a.Max?
    ensures Ordered(Step(s, a))
  {
    var y := Step(s, a);
    assert y.pcs == s.pcs[a.t := y.pcs[a.t]] && (y.pcs[a.t].Loaded? ==> y.pcs[a.t].u.Tracked());
    assert TableOk(y.pcs, y.wins, y.slots);
  }

  lemma StepAccounted(s: Sys, a: Act)
    requires Ordered(s) && Accounted(s) && Enabled(s, a)
    ensures Accounted(Step(s, a))
  {
    if a.Take? {
      TakeAccounted(s, a.j);
    } else {
      var y := Step(s, a);
      assert y.pcs == s.pcs[a.t := y.pcs[a.t]];
      forall v: Update | v.Tracked() ensures v in y.wins <==> Somewhere(y, v) {
        Moved(s, a.t, y.pcs[a.t], y, v);
        assert v in s.wins <==> Somewhere(s, v);
        DecoderAccounted(s, a, v);
      }
    }
  }

  /** A decoder's step, for one claim. */
  lemma DecoderAccounted(s: Sys, a: Act, v: Update)
    requires Enabled(s, a) && !a.Take? && v.Tracked()
    ensures var y := Step(s, a);
            && (v in y.wins <==> v in s.wins || (a.Max? && y.pcs[a.t] == Holding(v)))
            && (v in y.queue <==> v in s.queue || (a.Push? && s.pcs[a.t] == Holding(v)))
            && (v in y.abandoned <==> v in s.abandoned || (a.Abandon? && s.pcs[a.t] == Holding(v)))
            && y.taken == s.taken
            && (a.Load? ==> y.pcs[a.t] != Holding(v) && s.pcs[a.t] != Holding(v))
  {
  }

  lemma StepGood(s: Sys, a: Act)
    requires Good(s) && Enabled(s, a)
    ensures Good(Step(s, a))
  {
    StepOrdered(s, a);
    StepAccounted(s, a);
  }

  lemma StartGood(decoders: nat)
    ensures Good(Start(decoders))
  {
    var s := Start(decoders);
    forall u: Update ensures !Somewhere(s, u) {
      forall t ensures !Holds(s, t, u) {
      }
    }
  }

  lemma {:induction false} RunGood(s: Sys, acts: seq<Act>, t: Sys)
    requires Good(s) && Runs(s, acts, t)
    ensures Good(t)
    decreases |acts|
  {
    if acts != [] {
      StepGood(s, acts[0]);
      RunGood(Step(s, acts[0]), acts[1..], t);
    }
  }

  // ---- main results ----

  /** However the decoders' steps interleave, no two claims of one instrument win the
      same key, and the winning keys only go up. */
  lemma EachKeyWonOnce(decoders: nat, acts: seq<Act>, t: Sys, j: nat, k: nat)
    requires Runs(Start(decoders), acts, t) && j < k < |t.wins|
    requires t.wins[j].inst == t.wins[k].inst && t.wins[j].Tracked()
    ensures t.wins[j].key < t.wins[k].key
  {
    StartGood(decoders);
    RunGood(Start(decoders), acts, t);
  }

  /** What the loop applies of one instrument goes up strictly. Once the queue is
      drained and no decoder holds a claim, it has reached the highest key claimed,
      unless the decoder that won that very key never pushed it. */
  lemma LoopEndsAtTheTop(decoders: nat, acts: seq<Act>, t: Sys, i: nat)
    requires Runs(Start(decoders), acts, t) && i < MAX_TRACKED
    requires t.queue == [] && forall h :: 0 <= h < |t.pcs| ==> !t.pcs[h].Holding?
    ensures Rising(t.log)
    ensures Slot(t.applied, i) == Slot(t.slots, i) <==>
            !exists u :: u in t.abandoned && u !in t.taken && u.inst == i && Stored(u.key) == Slot(t.slots, i)
    ensures i in t.applied ==> exists u :: Reaches(u, Members(t.log), i, t.applied[i])
  {
    StartGood(decoders);
    RunGood(Start(decoders), acts, t);
    forall u: Update | u.Tracked() ensures u in t.wins <==> u in t.taken || u in t.abandoned {
      forall h ensures !Holds(t, h, u) {
      }
      assert u in t.wins <==> Somewhere(t, u);
    }
    TopIsWon(t, i);
  }

  lemma TopIsWon(t: Sys, i: nat)
    requires Good(t) && i < MAX_TRACKED
    requires forall u: Update :: u.Tracked() ==> (u in t.wins <==> u in t.taken || u in t.abandoned)
    ensures Slot(t.applied, i) == Slot(t.slots, i) <==>
            !exists u :: u in t.abandoned && u !in t.taken && u.inst == i && Stored(u.key) == Slot(t.slots, i)
  {
    var wins, taken := Members(t.wins), Among(t.taken);
    if i in t.slots {
      var top :| Reaches(top, wins, i, t.slots[i]);
      if i in t.applied {
        var last :| Reaches(last, taken, i, t.applied[i]);
        assert last in t.wins;
        assert Stored(last.key) <= Slot(t.slots, i);
        if Slot(t.applied, i) == Slot(t.slots, i) {
          forall u | u in t.abandoned && u.inst == i && Stored(u.key) == Slot(t.slots, i) ensures u in t.taken {
            assert u in t.wins;
            SameWin(t.wins, u, last);
          }
        }
      }
      if top in t.taken {
        assert top in taken;
      }
    }
  }

  lemma SameWin(wins: seq<Update>, u: Update, v: Update)
    requires Rising(wins) && u in wins && v in wins && u.inst == v.inst && u.Tracked()
    requires Stored(u.key) == Stored(v.key)
    ensures u == v
  {
    var j :| 0 <= j < |wins| && wins[j] == u;
    var k :| 0 <= k < |wins| && wins[k] == v;
    assert !(j < k) && !(k < j);
  }

  /** A claim loses exactly when one as high has won, or when it is the one key that
      saturation makes indistinguishable from the key below it. */
  lemma LosesOnlyToAsHigh(decoders: nat, acts: seq<Act>, t: Sys, u: Update)
    requires Runs(Start(decoders), acts, t) && u.Tracked()
    ensures !Beats(t.slots, u) <==>
            exists w :: w in t.wins && w.inst == u.inst &&
                        (w.key >= u.key || (u.key == U64_MAX && w.key == U64_MAX - 1))
  {
    StartGood(decoders);
    RunGood(Start(decoders), acts, t);
    if !Beats(t.slots, u) {
      var w :| Reaches(w, Members(t.wins), u.inst, t.slots[u.inst]);
      assert w in t.wins && w.inst == u.inst;
    }
    if w :| w in t.wins && w.inst == u.inst && (w.key >= u.key || (u.key == U64_MAX && w.key == U64_MAX - 1)) {
      assert w in Members(t.wins);
    }
  }

  // ---- the pre-check ----

  /** The table after bare fetch_max claims. */
  function BareSlots(verdicts: seq<Verdict>): map<nat, U64> {
    if verdicts == [] then map[]
    else FetchMax(BareSlots(verdicts[..|verdicts| - 1]), verdicts[|verdicts| - 1].u)
  }

  /** Verdict `j` is what a bare fetch_max decides after those before it. */
  ghost predicate BareAt(verdicts: seq<Verdict>, j: nat)
    requires j < |verdicts|
  {
    verdicts[j].won == Beats(BareSlots(verdicts[..j]), verdicts[j].u)
  }

  ghost predicate IsBare(verdicts: seq<Verdict>, slots: map<nat, U64>) {
    slots == BareSlots(verdicts) && forall j :: 0 <= j < |verdicts| ==> BareAt(verdicts, j)
  }

  lemma PrecheckStep(s: Sys, a: Act)
    requires Enabled(s, a) && IsBare(s.verdicts, s.slots)
    ensures IsBare(Step(s, a).verdicts, Step(s, a).slots)
  {
    var y := Step(s, a);
    if y.verdicts != s.verdicts {
      assert y.verdicts[..|s.verdicts|] == s.verdicts;
      forall j | 0 <= j < |y.verdicts| ensures BareAt(y.verdicts, j) {
        assert j < |s.verdicts| ==> BareAt(s.verdicts, j) && y.verdicts[..j] == s.verdicts[..j];
      }
    }
  }

  /** The load before a claim changes no verdict: with each claim placed at the step
      that decided it, table and verdicts are those of bare fetch_max claims. */
  lemma {:induction false} PrecheckIsInvisible(s: Sys, acts: seq<Act>, t: Sys)
    requires IsBare(s.verdicts, s.slots) && Runs(s, acts, t)
    ensures IsBare(t.verdicts, t.slots)
    decreases |acts|
  {
    if acts != [] {
      PrecheckStep(s, acts[0]);
      PrecheckIsInvisible(Step(s, acts[0]), acts[1..], t);
    }
  }
}
