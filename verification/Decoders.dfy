/** The claim table and one decoder's generations as the decoder's thread holds them.
    A call here runs undisturbed; what other threads do in between is the business of
    Claims and Generations, whose steps these calls are made of. */
module Decoders {
  import opened Wrappers
  import opened Claims
  import Generations

  type Gen = Generations.Gen

  type View = Generations.View

  datatype Claim = Won(key: U64) | Lost | LostToNewerGeneration | TooWide

  class ClaimTable {
    const segments: array<array?<U64>>
    ghost var repr: set<object>

    ghost predicate Valid()
      reads this, repr, segments
    {
      && segments in repr && this in repr
      && segments.Length == SEGMENTS
      && (forall i :: 0 <= i < SEGMENTS && segments[i] != null ==> OwnedAt(i))
      && (forall i, j :: 0 <= i < SEGMENTS && 0 <= j < SEGMENTS && i != j && segments[i] != null ==> segments[i] != segments[j])
    }

    ghost predicate OwnedAt(i: nat)
      reads this`repr, segments
      requires i < segments.Length && segments[i] != null
    {
      segments[i] in repr && segments[i].Length == SEGMENT
    }

    /** What the slot of a tracked instrument holds. A segment not yet allocated holds
        nothing claimed. */
    ghost function SlotAt(inst: nat): U64
      reads this, repr, segments
      requires Valid() && inst < MAX_TRACKED
    {
      if segments[inst / SEGMENT] == null then 0 else segments[inst / SEGMENT][inst % SEGMENT]
    }

    constructor ()
      ensures Valid() && fresh(repr)
      ensures forall i :: 0 <= i < MAX_TRACKED ==> SlotAt(i) == 0
    {
      segments := new array?<U64>[SEGMENTS](i => null);
      repr := {this, segments};
    }

    /** The segment of an instrument, allocated the first time one of it is claimed.
        A segment never moves. */
    method SegmentFor(inst: nat) returns (segment: array<U64>)
      requires Valid() && inst < MAX_TRACKED
      modifies segments, this`repr
      ensures Valid() && fresh(repr - old(repr)) && old(repr) <= repr
      ensures segment == segments[inst / SEGMENT]
      ensures old(segments[inst / SEGMENT]) != null ==> segment == old(segments[inst / SEGMENT])
      ensures forall i :: 0 <= i < MAX_TRACKED ==> SlotAt(i) == old(SlotAt(i))
    {
      if segments[inst / SEGMENT] == null {
        segment := new U64[SEGMENT](i => 0);
        segments[inst / SEGMENT] := segment;
        repr := repr + {segment};
      } else {
        segment := segments[inst / SEGMENT];
      }
    }

    /** Claim a key: it wins when it is above all that was claimed for the instrument,
        and is then the highest. One the table has no room for always wins. */
    method Claim(inst: nat, key: U64) returns (won: bool)
      requires Valid()
      modifies repr
      ensures Valid() && fresh(repr - old(repr))
      ensures inst >= MAX_TRACKED ==> won
      ensures inst < MAX_TRACKED ==>
                && (won <==> old(SlotAt(inst)) < Stored(key))
                && SlotAt(inst) == if won then Stored(key) else old(SlotAt(inst))
      ensures forall i :: 0 <= i < MAX_TRACKED && i != inst ==> SlotAt(i) == old(SlotAt(i))
    {
      if inst / SEGMENT >= SEGMENTS {
        return true;
      }
      var segment := SegmentFor(inst);
      var stored := Stored(key);
      if segment[inst % SEGMENT] >= stored {
        return false;
      }
      won := Raise(inst, segment, stored);
    }

    /** fetch_max on one slot. */
    method Raise(inst: nat, segment: array<U64>, stored: U64) returns (raised: bool)
      requires Valid() && inst < MAX_TRACKED && segment == segments[inst / SEGMENT]
      modifies segment
      ensures Valid() && (raised <==> old(SlotAt(inst)) < stored)
      ensures SlotAt(inst) == if raised then stored else old(SlotAt(inst))
      ensures forall i :: 0 <= i < MAX_TRACKED && i != inst ==> SlotAt(i) == old(SlotAt(i))
    {
      raised := segment[inst % SEGMENT] < stored;
      assert OwnedAt(inst / SEGMENT);
      if raised {
        segment[inst % SEGMENT] := stored;
      }
      forall i | 0 <= i < MAX_TRACKED && i != inst ensures SlotAt(i) == old(SlotAt(i)) {
        if segments[i / SEGMENT] == segment {
          assert i / SEGMENT == inst / SEGMENT;
          assert i % SEGMENT != inst % SEGMENT;
        }
      }
    }

    /** The highest key claimed, or None when nothing was or could be. */
    method Claimed(inst: nat) returns (key: Option<U64>)
      requires Valid()
      ensures key == if inst >= MAX_TRACKED || SlotAt(inst) == 0 then None else Some(SlotAt(inst) - 1)
    {
      if inst / SEGMENT >= SEGMENTS || segments[inst / SEGMENT] == null {
        return None;
      }
      assert OwnedAt(inst / SEGMENT);
      var stored := segments[inst / SEGMENT][inst % SEGMENT];
      return if stored == 0 then None else Some(stored - 1);
    }
  }

  // ---- one decoder ----

  /** A claim whose steps nothing comes between. */
  function Finish(r: Generations.Race, d: nat): Generations.Race
    requires d < |r.decoders|
  {
    var r1 := Generations.Advance(r, d);
    var r2 := Generations.Advance(r1, d);
    var r3 := Generations.Advance(r2, d);
    var r4 := Generations.Advance(r3, d);
    Generations.Advance(r4, d)
  }

  /** The race of one decoder with this view against a slot, one update delivered. */
  function Alone(v: View, slot: U64, counter: nat): Generations.Race
    requires counter < Generations.COUNTERS
  {
    var idle := Generations.Decoder(v, Generations.Position(0, None), Generations.Idle);
    Finish(Generations.Step(Generations.Race(slot, [idle], []), Generations.Deliver(0, 0, counter)), 0)
  }

  /** What a claim leaves: the decoder's view, the slot, and the answer. */
  datatype Claiming = Claiming(view: View, slot: U64, claim: Claim)

  function Settled(v: View, slot: U64, counter: nat): Claiming
    requires counter < Generations.COUNTERS
  {
    var key, saw := Generations.KeyOf(v.gen, counter), Generations.Saw(v, counter);
    if slot < Stored(key) then Claiming(saw, Stored(key), Won(key))
    else if !Generations.LostToNewer(v, slot) then Claiming(saw, slot, Lost)
    else if !Generations.Fell(v, counter) then Claiming(saw, slot, LostToNewerGeneration)
    else
      var newer := Generations.GenOf(slot - 1);
      var again, caught := Generations.KeyOf(newer, counter), Generations.View(newer, counter + 1);
      if slot < Stored(again) then Claiming(caught, Stored(again), Won(again)) else Claiming(caught, slot, Lost)
  }

  /** A claim in one piece is the race of its atomic steps when nothing else moves. */
  lemma SettledIsTheRace(v: View, slot: U64, counter: nat)
    requires counter < Generations.COUNTERS
    ensures var r, c := Alone(v, slot, counter), Settled(v, slot, counter);
            && |r.decoders| == 1 && r.decoders[0].pc.Idle? && r.decoders[0].view == c.view && r.slot == c.slot
            && r.wins == if c.claim.Won? then [Generations.Win(0, counter, c.claim.key)] else []
  {
  }

  class CounterGenerations {
    var generations: seq<Gen>
    var last: seq<nat>

    ghost function ViewOf(inst: nat): View
      reads this
    {
      Generations.View(if inst < |generations| then generations[inst] else 0, if inst < |last| then last[inst] else 0)
    }

    /** Nothing is kept of an instrument beyond the table. */
    ghost predicate Valid()
      reads this
    {
      |generations| <= MAX_TRACKED && |last| <= MAX_TRACKED
    }

    constructor ()
      ensures Valid() && forall i :: ViewOf(i) == Generations.View(0, 0)
    {
      generations, last := [], [];
    }

    method SetGeneration(inst: nat, g: Gen)
      requires Valid() && inst < MAX_TRACKED
      modifies this`generations
      ensures Valid() && ViewOf(inst) == old(ViewOf(inst)).(gen := g)
      ensures forall i :: i != inst ==> ViewOf(i) == old(ViewOf(i))
    {
      if |generations| <= inst {
        generations := generations + seq(inst + 1 - |generations|, i => 0);
      }
      generations := generations[inst := g];
    }

    method Restart(inst: nat)
      requires Valid()
      modifies this
      ensures Valid() && ViewOf(inst) == if inst >= MAX_TRACKED then old(ViewOf(inst)) else Generations.Restarted(old(ViewOf(inst)))
      ensures forall i :: i != inst ==> ViewOf(i) == old(ViewOf(i))
    {
      if inst >= MAX_TRACKED {
        return;
      }
      var g := Generation(inst);
      SetGeneration(inst, if g == 0xFFFF then g else g + 1);
      if inst < |last| {
        last := last[inst := 0];
      }
    }

    function Generation(inst: nat): (g: Gen)
      reads this
      ensures g == ViewOf(inst).gen
    {
      if inst < |generations| then generations[inst] else 0
    }

    /** Note a counter; tell whether it fell below what this decoder saw. */
    method See(inst: nat, counter: nat) returns (fell: bool)
      requires Valid() && inst < MAX_TRACKED
      modifies this`last
      ensures Valid() && fell == Generations.Fell(old(ViewOf(inst)), counter)
      ensures ViewOf(inst) == Generations.Saw(old(ViewOf(inst)), counter)
      ensures forall i :: i != inst ==> ViewOf(i) == old(ViewOf(i))
    {
      if |last| <= inst {
        last := last + seq(inst + 1 - |last|, i => 0);
      }
      var seen := last[inst];
      fell := seen != 0 && counter + 1 < seen;
      last := last[inst := if seen > counter + 1 then seen else counter + 1];
    }

    method Adopt(inst: nat, newer: Gen, counter: nat)
      requires Valid() && inst < MAX_TRACKED && inst < |last|
      modifies this
      ensures Valid() && ViewOf(inst) == Generations.View(newer, counter + 1)
      ensures forall i :: i != inst ==> ViewOf(i) == old(ViewOf(i))
    {
      SetGeneration(inst, newer);
      last := last[inst := counter + 1];
    }

    /** Claim a counter under this decoder's generation, catching up with a newer one
        where a fall shows that to be safe. */
    method Claim(claims: ClaimTable, inst: nat, counter: U64) returns (c: Claim)
      requires Valid() && claims.Valid() && this !in claims.repr
      modifies this, claims.repr
      ensures Valid() && claims.Valid() && fresh(claims.repr - old(claims.repr))
      ensures c == TooWide <==> counter >= Generations.COUNTERS
      ensures c == TooWide || inst >= MAX_TRACKED ==> ViewOf(inst) == old(ViewOf(inst))
      ensures c != TooWide && inst >= MAX_TRACKED ==> c == Won(Generations.KeyOf(0, counter))
      ensures c != TooWide && inst < MAX_TRACKED ==>
                Claiming(ViewOf(inst), claims.SlotAt(inst), c) == Settled(old(ViewOf(inst)), old(claims.SlotAt(inst)), counter)
      ensures forall i :: i != inst ==> ViewOf(i) == old(ViewOf(i))
    {
      if counter >= Generations.COUNTERS {
        return TooWide;
      }
      var key := Generations.KeyOf(Generation(inst), counter);
      if inst >= MAX_TRACKED {
        var free := claims.Claim(inst, key);
        return if free then Won(key) else Lost;
      }
      var fell := See(inst, counter);
      var won := claims.Claim(inst, key);
      if won {
        return Won(key);
      }
      var top := claims.Claimed(inst);
      if top.None? || Generations.GenOf(top.value) <= Generation(inst) {
        return Lost;
      }
      if !fell {
        return LostToNewerGeneration;
      }
      var newer := Generations.GenOf(top.value);
      Adopt(inst, newer, counter);
      key := Generations.KeyOf(newer, counter);
      won := claims.Claim(inst, key);
      return if won then Won(key) else Lost;
    }
  }
}
