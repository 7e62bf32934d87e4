/** What a run of changes leaves at one price, told from the messages alone. */
module Levels {
  import opened Wrappers
  import opened Book
  import opened InstrumentSpec

  /** The level standing at a price of a side, if any. */
  function Standing(b: Book, side: Side, price: Price): Option<Level> {
    if price in b.On(side) then Some(b.On(side)[price]) else None
  }

  /** A well-formed message that says something about this price of this side: it names
      it, or clears it. Bids are cleared from a price downwards, asks upwards. */
  predicate Concerns(c: Change, side: Side, price: Price) {
    match c
    case LevelUpdate(s, p, _) => s == side && p == price
    case BookClear(s, scope, from) =>
      && (s == ClearBoth || (s == ClearBid && side == Bid) || (s == ClearAsk && side == Ask))
      && (|| scope == EntireSide
          || (scope == FromPrice && s == ClearBid && price <= from)
          || (scope == FromPrice && s == ClearAsk && price >= from))
  }

  /** What a message that concerns a price leaves there: the level it states, unless its
      quantity is zero; a clear leaves nothing. */
  function Said(c: Change): Option<Level> {
    if c.LevelUpdate? && c.level.qty != 0 then Some(c.level) else None
  }

  /** One message: what it concerns becomes what it says, all else stays, on both sides. */
  lemma OneLeaves(b: Book, c: Change, side: Side, price: Price)
    ensures Standing(Apply(b, c), side, price) == if Concerns(c, side, price) then Said(c) else Standing(b, side, price)
  {
  }

  /** Delta `j` has the last word on the price. */
  predicate LastWord(ds: seq<Delta>, j: nat, side: Side, price: Price) {
    && j < |ds| && Concerns(ds[j].change, side, price)
    && forall k :: j < k < |ds| ==> !Concerns(ds[k].change, side, price)
  }

  predicate Unmentioned(ds: seq<Delta>, side: Side, price: Price) {
    forall k :: 0 <= k < |ds| ==> !Concerns(ds[k].change, side, price)
  }

  lemma WordsShift(d: Delta, rest: seq<Delta>, side: Side, price: Price)
    ensures Unmentioned([d] + rest, side, price) <==> !Concerns(d.change, side, price) && Unmentioned(rest, side, price)
    ensures LastWord([d] + rest, 0, side, price) <==> Concerns(d.change, side, price) && Unmentioned(rest, side, price)
    ensures forall j: nat :: j > 0 ==> (LastWord([d] + rest, j, side, price) <==> LastWord(rest, j - 1, side, price))
  {
    var ds := [d] + rest;
    assert ds[0] == d;
    assert forall k :: 0 < k < |ds| ==> ds[k] == rest[k - 1];
    if Unmentioned(rest, side, price) {
      assert forall k :: 0 < k < |ds| ==> !Concerns(ds[k].change, side, price);
    }
    if forall k :: 0 < k < |ds| ==> !Concerns(ds[k].change, side, price) {
      forall k | 0 <= k < |rest| ensures !Concerns(rest[k].change, side, price) {
        assert ds[k + 1] == rest[k];
      }
    }
    forall j: nat | j > 0 ensures LastWord(ds, j, side, price) <==> LastWord(rest, j - 1, side, price) {
      if LastWord(ds, j, side, price) {
        assert forall k :: j - 1 < k < |rest| ==> rest[k] == ds[k + 1];
      }
    }
  }

  /** After any run of messages a price holds what the last message to concern it said;
      if none did, what it held before. One of the two is always the case, and a
      malformed clear concerns nothing. */
  lemma {:induction false} RunLeaves(b: Book, ds: seq<Delta>, side: Side, price: Price)
    ensures forall j: nat :: LastWord(ds, j, side, price) ==> Standing(InOrder(b, ds), side, price) == Said(ds[j].change)
    ensures Unmentioned(ds, side, price) ==> Standing(InOrder(b, ds), side, price) == Standing(b, side, price)
    ensures Unmentioned(ds, side, price) || exists j: nat :: LastWord(ds, j, side, price)
    decreases |ds|
  {
    if ds != [] {
      var d, rest := ds[0], ds[1..];
      assert ds == [d] + rest;
      OneLeaves(b, d.change, side, price);
      RunLeaves(Apply(b, d.change), rest, side, price);
      WordsShift(d, rest, side, price);
      forall j: nat | LastWord(ds, j, side, price)
        ensures Standing(InOrder(b, ds), side, price) == Said(ds[j].change)
      {
        if j > 0 {
          assert LastWord(rest, j - 1, side, price) && rest[j - 1] == ds[j];
        }
      }
      if j: nat :| LastWord(rest, j, side, price) {
        assert LastWord(ds, j + 1, side, price);
      } else if Concerns(d.change, side, price) {
        assert LastWord(ds, 0, side, price);
      }
    }
  }
}
