/** The two-goroutine Top-of-Book parser: instruments, held strikes and pending
    messages under one lock, shared by the readers of two ports. */
module TopOfBook {
  import opened Wrappers
  import ShardSpec
  import ChannelMaps

  type Strike = ShardSpec.Strike

  const MAX_BUFFERED := 1000

  /** A decoded definition message. `ref` stands for its address: no two have the
      same. */
  datatype Definition = Definition(ref: nat, inst: nat, sourceId: nat)

  datatype Info = Info(def: Definition, strike: Option<Strike>)

  /** A market-data message, by an identity of its own. */
  datatype Pending = Pending(inst: nat, id: nat)

  datatype Parser = Parser(instruments: map<nat, Info>, buffer: map<nat, Pending>, dropped: nat, ignored: nat)

  const EMPTY := Parser(map[], map[], 0, 0)

  // ---- the critical sections, as values ----

  function Define(p: Parser, d: Definition): Parser {
    p.(instruments := p.instruments[d.inst := Info(d, None)])
  }

  /** Strike State rule 5: the message before is the definition of its instrument,
      with its Source ID where the schema carries one. */
  predicate Behind(prev: Option<Definition>, inst: nat, sourceId: nat, v3: bool) {
    prev.Some? && prev.value.inst == inst && (v3 ==> prev.value.sourceId == sourceId)
  }

  predicate Holds(p: Parser, prev: Option<Definition>, inst: nat, sourceId: nat, v3: bool) {
    Behind(prev, inst, sourceId, v3) && inst in p.instruments && p.instruments[inst].def == prev.value
  }

  function HoldStrike(p: Parser, prev: Option<Definition>, inst: nat, sourceId: nat, v3: bool, s: Strike): Parser {
    if Holds(p, prev, inst, sourceId, v3)
    then p.(instruments := p.instruments[inst := p.instruments[inst].(strike := Some(s))])
    else p.(ignored := p.ignored + 1)
  }

  function ResetAll(p: Parser): Parser {
    p.(instruments := map[], buffer := map[])
  }

  /** Keep the newest message of an unknown instrument, while there is room for it. */
  function BufferOne(p: Parser, m: Pending): Parser {
    if m.inst in p.buffer || |p.buffer| < MAX_BUFFERED then p.(buffer := p.buffer[m.inst := m])
    else p.(dropped := p.dropped + 1)
  }

  function Ready(p: Parser): map<nat, Pending> {
    map i | i in p.buffer && p.buffer[i].inst in p.instruments :: p.buffer[i]
  }

  function Flushed(p: Parser): Parser {
    p.(buffer := p.buffer - Ready(p).Keys)
  }

  /** No more is ever pending than the cap, and each under its own instrument. */
  predicate PendingOk(p: Parser) {
    |p.buffer| <= MAX_BUFFERED && forall i :: i in p.buffer ==> p.buffer[i].inst == i
  }

  class TopOfBookParser {
    var instruments: map<nat, Info>
    var buffer: map<nat, Pending>
    var bufferDropped: nat
    var strikesIgnored: nat

    function State(): Parser
      reads this
    {
      Parser(instruments, buffer, bufferDropped, strikesIgnored)
    }

    constructor ()
      ensures State() == EMPTY
    {
      instruments, buffer := map[], map[];
      bufferDropped, strikesIgnored := 0, 0;
    }

    method HandleInstrumentDef(d: Definition)
      modifies this
      ensures State() == Define(old(State()), d)
    {
      instruments := instruments[d.inst := Info(d, None)];
    }

    /** Hold a strike on the definition it arrived behind, and say so, in one critical
        section. */
    method HandleStrikeInterval(prev: Option<Definition>, inst: nat, sourceId: nat, v3: bool, s: Strike)
        returns (emitted: bool)
      modifies this
      ensures State() == HoldStrike(old(State()), prev, inst, sourceId, v3, s)
      ensures emitted <==> Holds(old(State()), prev, inst, sourceId, v3)
      ensures emitted <==> strikesIgnored == old(strikesIgnored)
    {
      var why := prev.None? || prev.value.inst != inst || (v3 && prev.value.sourceId != sourceId);
      if !why {
        if inst in instruments && instruments[inst].def == prev.value {
          instruments := instruments[inst := instruments[inst].(strike := Some(s))];
        } else {
          why := true;
        }
      }
      if why {
        strikesIgnored := strikesIgnored + 1;
      }
      emitted := !why;
    }

    method HandleChannelReset()
      modifies this
      ensures State() == ResetAll(old(State()))
    {
      instruments, buffer := map[], map[];
    }

    method BufferPendingLocked(m: Pending)
      requires |buffer| <= MAX_BUFFERED
      modifies this
      ensures State() == BufferOne(old(State()), m) && |buffer| <= MAX_BUFFERED
    {
      if m.inst in buffer {
        assert buffer[m.inst := m].Keys == buffer.Keys;
        buffer := buffer[m.inst := m];
        return;
      }
      if |buffer| >= MAX_BUFFERED {
        bufferDropped := bufferDropped + 1;
        return;
      }
      buffer := buffer[m.inst := m];
    }

    /** Emit what has become known, each message once, in whatever order the map is
        walked, and keep the rest. */
    method FlushBuffer() returns (records: seq<Pending>)
      requires PendingOk(State())
      modifies this
      ensures State() == Flushed(old(State()))
      ensures forall m :: m in records <==> m.inst in Ready(old(State())) && old(buffer)[m.inst] == m
      ensures forall j, k :: 0 <= j < k < |records| ==> records[j] != records[k]
    {
      records := [];
      ghost var p := State();
      var todo := buffer.Keys;
      while todo != {}
        invariant todo <= p.buffer.Keys && State() == p.(buffer := buffer)
        invariant forall i :: i in buffer <==> i in p.buffer && (i in todo || i !in p.instruments)
        invariant forall i :: i in buffer ==> buffer[i] == p.buffer[i]
        invariant forall m :: m in records <==>
                    m.inst in p.buffer && m.inst !in todo && m.inst in p.instruments && p.buffer[m.inst] == m
        invariant forall j, k :: 0 <= j < k < |records| ==> records[j] != records[k]
        decreases todo
      {
        var i :| i in todo;
        var m := buffer[i];
        assert m !in records;
        todo := todo - {i};
        if m.inst in instruments {
          records := records + [m];
          buffer := buffer - {i};
        }
      }
      assert buffer == Flushed(p).buffer;
    }
  }

  // ---- two goroutines ----

  /** One critical section of a goroutine. Finish ends its datagram, with a flush. */
  datatype Act =
    | Def(t: nat, inst: nat, sourceId: nat)
    | Strk(t: nat, inst: nat, sourceId: nat, v3: bool, strike: Strike)
    | Rst(t: nat)
    | Other(t: nat)
    | Buffer(t: nat, m: Pending)
    | Finish(t: nat)

  /** The parser, what each goroutine remembers of the message before, the sections so
      far, and which of them emitted a strike record. */
  datatype World = World(parser: Parser, prev: map<nat, Definition>, history: seq<Act>, emitted: set<nat>)

  const START := World(EMPTY, map[], [], {})

  function Prev(w: World, t: nat): Option<Definition> {
    if t in w.prev then Some(w.prev[t]) else None
  }

  function Step(w: World, a: Act): World {
    var n := |w.history|;
    var x := w.(history := w.history + [a], prev := w.prev - {a.t});
    match a
    case Def(t, inst, sourceId) =>
      var d := Definition(n, inst, sourceId);
      x.(parser := Define(w.parser, d), prev := w.prev[t := d])
    case Strk(t, inst, sourceId, v3, s) =>
      x.(parser := HoldStrike(w.parser, Prev(w, t), inst, sourceId, v3, s),
         emitted := if Holds(w.parser, Prev(w, t), inst, sourceId, v3) then w.emitted + {n} else w.emitted)
    case Rst(t) => x.(parser := ResetAll(w.parser))
    case Other(t) => x
    case Buffer(t, m) => x.(parser := BufferOne(w.parser, m))
    case Finish(t) => x.(parser := Flushed(w.parser))
  }

  /** The world after a history. */
  function After(history: seq<Act>): World {
    if history == [] then START else Step(After(history[..|history| - 1]), history[|history| - 1])
  }

  // ---- what a history says ----

  /** Section `n` is goroutine t's last so far. */
  predicate IsLastBy(h: seq<Act>, t: nat, n: nat) {
    n < |h| && h[n].t == t && forall k :: n < k < |h| ==> h[k].t != t
  }

  /** Nothing has cleared or replaced what `n` defined for the instrument since. */
  predicate Undisturbed(h: seq<Act>, n: nat, inst: nat) {
    n < |h| && forall k :: n < k < |h| ==> !Disturbs(h[k], inst)
  }

  predicate Disturbs(a: Act, inst: nat) {
    a.Rst? || (a.Def? && a.inst == inst)
  }

  /** A strike section behind a past comes directly behind the matching definition in
      its goroutine's datagram, and nothing has disturbed that definition. */
  predicate BehindAt(h: seq<Act>, a: Act, n: nat)
    requires a.Strk?
  {
    && IsLastBy(h, a.t, n) && h[n].Def? && h[n].inst == a.inst
    && (a.v3 ==> h[n].sourceId == a.sourceId)
    && Undisturbed(h, n, a.inst)
  }

  ghost predicate RuleFive(h: seq<Act>, k: nat)
    requires k < |h|
  {
    h[k].Strk? && exists n :: BehindAt(h[..k], h[k], n)
  }

  predicate DefinesAt(h: seq<Act>, n: nat, d: Definition) {
    n < |h| && d.ref == n && h[n].Def? && h[n].inst == d.inst && h[n].sourceId == d.sourceId
  }

  /** A goroutine remembers a definition exactly when that was its last section. */
  ghost predicate RemembersWell(w: World) {
    var h := w.history;
    && (forall t :: t in w.prev ==> DefinesAt(h, w.prev[t].ref, w.prev[t]) && IsLastBy(h, t, w.prev[t].ref))
    && (forall j :: 0 <= j < |h| && h[j].Def? && IsLastBy(h, h[j].t, j) ==> h[j].t in w.prev && w.prev[h[j].t].ref == j)
  }

  /** An instrument is held from a definition exactly when that stands undisturbed. */
  ghost predicate HoldsWell(w: World) {
    var h := w.history;
    && (forall i :: i in w.parser.instruments ==> HeldFrom(h, w.parser.instruments[i].def, i))
    && (forall j :: 0 <= j < |h| && h[j].Def? && Undisturbed(h, j, h[j].inst) ==>
          h[j].inst in w.parser.instruments && w.parser.instruments[h[j].inst].def.ref == j)
  }

  predicate HeldFrom(h: seq<Act>, d: Definition, i: nat) {
    DefinesAt(h, d.ref, d) && d.inst == i && Undisturbed(h, d.ref, i)
  }

  ghost predicate Agrees(w: World) {
    RemembersWell(w) && HoldsWell(w)
  }

  lemma LastByMore(h: seq<Act>, a: Act, t: nat, n: nat)
    ensures IsLastBy(h + [a], t, n) <==> (n == |h| && a.t == t) || (a.t != t && IsLastBy(h, t, n))
  {
    var all := h + [a];
    assert all[|h|] == a;
    assert forall k :: 0 <= k < |h| ==> all[k] == h[k];
  }

  lemma UndisturbedMore(h: seq<Act>, a: Act, n: nat, inst: nat)
    ensures Undisturbed(h + [a], n, inst) <==> n == |h| || (!Disturbs(a, inst) && Undisturbed(h, n, inst))
  {
    var all := h + [a];
    assert all[|h|] == a;
    assert forall k :: 0 <= k < |h| ==> all[k] == h[k];
  }

  lemma StepRemembers(w: World, a: Act)
    requires RemembersWell(w)
    ensures RemembersWell(Step(w, a))
  {
    var x, h := Step(w, a), w.history;
    var all := h + [a];
    forall t | t in x.prev ensures DefinesAt(all, x.prev[t].ref, x.prev[t]) && IsLastBy(all, t, x.prev[t].ref) {
      LastByMore(h, a, t, x.prev[t].ref);
    }
    forall j | 0 <= j < |all| && all[j].Def? && IsLastBy(all, all[j].t, j)
      ensures all[j].t in x.prev && x.prev[all[j].t].ref == j
    {
      LastByMore(h, a, all[j].t, j);
      if j < |h| {
        assert h[j] == all[j];
      }
    }
  }

  lemma StepHolds(w: World, a: Act)
    requires HoldsWell(w)
    ensures HoldsWell(Step(w, a))
  {
    var h, p, q := w.history, w.parser.instruments, Step(w, a).parser.instruments;
    var all := h + [a];
    InstrumentsAfter(w, a);
    forall i | i in q ensures HeldFrom(all, q[i].def, i) {
      UndisturbedMore(h, a, q[i].def.ref, i);
      if q[i].def.ref < |h| {
        assert all[q[i].def.ref] == h[q[i].def.ref];
      }
    }
    forall j | 0 <= j < |all| && all[j].Def? && Undisturbed(all, j, all[j].inst)
      ensures all[j].inst in q && q[all[j].inst].def.ref == j
    {
      UndisturbedMore(h, a, j, all[j].inst);
      if j < |h| {
        assert h[j] == all[j];
      }
    }
  }

  /** What a section does to the definitions held. */
  lemma InstrumentsAfter(w: World, a: Act)
    ensures var p, q := w.parser.instruments, Step(w, a).parser.instruments;
            && (forall i :: i in q <==> if Disturbs(a, i) then a.Def? else i in p)
            && (forall i :: i in q ==> q[i].def == if Disturbs(a, i) then Definition(|w.history|, i, a.sourceId) else p[i].def)
  {
  }

  lemma StepAgrees(w: World, a: Act)
    requires Agrees(w)
    ensures Agrees(Step(w, a))
  {
    StepRemembers(w, a);
    StepHolds(w, a);
  }

  lemma StepHistory(w: World, a: Act)
    ensures Step(w, a).history == w.history + [a]
  {
  }

  lemma {:induction false} HistoryIs(h: seq<Act>)
    ensures After(h).history == h
  {
    if h != [] {
      var before, a := h[..|h| - 1], h[|h| - 1];
      HistoryIs(before);
      var w := After(before);
      StepHistory(w, a);
      assert After(h).history == w.history + [a];
    }
  }

  lemma {:induction false} AlwaysAgrees(h: seq<Act>)
    ensures Agrees(After(h)) && After(h).history == h
  {
    HistoryIs(h);
    if h != [] {
      AlwaysAgrees(h[..|h| - 1]);
      StepAgrees(After(h[..|h| - 1]), h[|h| - 1]);
    } else {
      StartAgrees();
    }
  }

  lemma StartAgrees()
    ensures Agrees(START)
  {
  }

  /** A strike is held exactly when the rule holds of the past, and then on the
      definition directly before it. */
  lemma HoldsExactly(w: World, a: Act)
    requires Agrees(w) && a.Strk?
    ensures Holds(w.parser, Prev(w, a.t), a.inst, a.sourceId, a.v3) <==> exists n :: BehindAt(w.history, a, n)
    ensures Holds(w.parser, Prev(w, a.t), a.inst, a.sourceId, a.v3) ==>
              BehindAt(w.history, a, Prev(w, a.t).value.ref)
  {
    if n: nat :| BehindAt(w.history, a, n) {
      assert w.history[n].t == a.t;
      assert a.t in w.prev && w.prev[a.t].ref == n;
      assert w.parser.instruments[a.inst].def.ref == n;
      assert HeldFrom(w.history, w.parser.instruments[a.inst].def, a.inst);
    }
    if Holds(w.parser, Prev(w, a.t), a.inst, a.sourceId, a.v3) {
      assert HeldFrom(w.history, w.parser.instruments[a.inst].def, a.inst);
      assert BehindAt(w.history, a, w.prev[a.t].ref);
    }
  }

  /** Two goroutines, any interleaving, resets anywhere: a strike record is emitted
      exactly when its section comes directly behind the matching definition in its
      datagram and that definition has been neither cleared nor replaced since. */
  lemma {:induction false} EmittedExactly(h: seq<Act>, k: nat)
    requires k < |h|
    ensures k in After(h).emitted <==> RuleFive(h, k)
  {
    var n := |h| - 1;
    var before, a := h[..n], h[n];
    assert before + [a] == h;
    AlwaysAgrees(before);
    StepEmits(After(before), a, k);
    if k == n {
      if k in After(before).emitted {
        EmittedBelow(before, k);
      }
      if a.Strk? {
        HoldsExactly(After(before), a);
      }
    } else {
      EmittedExactly(before, k);
      assert before[..k] == h[..k];
    }
  }

  lemma StepEmits(w: World, a: Act, k: nat)
    ensures k in Step(w, a).emitted <==>
              k in w.emitted || (k == |w.history| && a.Strk? && Holds(w.parser, Prev(w, a.t), a.inst, a.sourceId, a.v3))
  {
  }

  lemma {:induction false} EmittedBelow(h: seq<Act>, k: nat)
    requires k in After(h).emitted
    ensures k < |h|
  {
    if h != [] {
      AlwaysAgrees(h[..|h| - 1]);
      StepEmits(After(h[..|h| - 1]), h[|h| - 1], k);
      if k in After(h[..|h| - 1]).emitted {
        EmittedBelow(h[..|h| - 1], k);
      }
    }
  }

  /** Emitting and holding are one: an emitted strike is the one held, on the very
      definition it came behind; one not emitted changes no instrument. */
  lemma EmittedIsHeld(h: seq<Act>, a: Act)
    requires a.Strk?
    ensures var p, q := After(h).parser, After(h + [a]).parser;
            if |h| in After(h + [a]).emitted
            then exists n :: BehindAt(h, a, n) && q == OnDefinition(p, h, a, n)
            else q == p.(ignored := p.ignored + 1)
  {
    AlwaysAgrees(h);
    assert (h + [a])[..|h|] == h;
    var w := After(h);
    if |h| in w.emitted {
      EmittedBelow(h, |h|);
    }
    StepEmits(w, a, |h|);
    HoldsExactly(w, a);
    if Holds(w.parser, Prev(w, a.t), a.inst, a.sourceId, a.v3) {
      var n := Prev(w, a.t).value.ref;
      assert After(h + [a]).parser == OnDefinition(w.parser, h, a, n);
    }
  }

  /** The strike held on what section `n` defined. */
  function OnDefinition(p: Parser, h: seq<Act>, a: Act, n: nat): Parser
    requires a.Strk? && n < |h| && h[n].Def?
  {
    p.(instruments := p.instruments[a.inst := Info(Definition(n, h[n].inst, h[n].sourceId), Some(a.strike))])
  }

  // ---- pending messages ----

  lemma StepPending(w: World, a: Act)
    requires PendingOk(w.parser)
    ensures PendingOk(Step(w, a).parser)
  {
    var p := w.parser;
    match a
    case Buffer(t, m) =>
      if m.inst in p.buffer {
        assert p.buffer[m.inst := m].Keys == p.buffer.Keys;
      }
    case Finish(t) => Fewer(p.buffer, Flushed(p).buffer);
    case _ =>
  }

  lemma {:induction false} PendingAlwaysOk(h: seq<Act>)
    ensures PendingOk(After(h).parser)
  {
    if h != [] {
      PendingAlwaysOk(h[..|h| - 1]);
      StepPending(After(h[..|h| - 1]), h[|h| - 1]);
    }
  }

  lemma Fewer(m: map<nat, Pending>, n: map<nat, Pending>)
    requires n.Keys <= m.Keys
    ensures |n| <= |m|
  {
    ChannelMaps.SubsetSize(n.Keys, m.Keys);
    assert |n| == |n.Keys| && |m| == |m.Keys|;
  }

  /** After a datagram nothing is pending for an instrument that is known: a message
      buffered while its definition was on its way leaves with the next flush. */
  lemma FlushLeavesOnlyUnknown(h: seq<Act>, t: nat, i: nat)
    requires i in After(h + [Finish(t)]).parser.buffer
    ensures i !in After(h + [Finish(t)]).parser.instruments
    ensures i in After(h).parser.buffer && After(h + [Finish(t)]).parser.buffer[i] == After(h).parser.buffer[i]
  {
    assert (h + [Finish(t)])[..|h|] == h;
    PendingAlwaysOk(h);
  }
}
