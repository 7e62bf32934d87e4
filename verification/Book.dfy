/** Price-level books and the two messages that change them. */
module Book {

  datatype Side = Bid | Ask

  /** A raw price: the wire's signed 64-bit integer. */
  type Price = p: int | -0x8000_0000_0000_0000 <= p < 0x8000_0000_0000_0000

  datatype Level = Level(qty: nat, orderCount: nat, flags: nat)

  /** Clear Side as the parser spells it. Every spelling it does not define is
      reserved. */
  datatype ClearSide = ClearBid | ClearAsk | ClearBoth | ClearReserved

  datatype Scope = EntireSide | FromPrice | ScopeReserved

  /** The book-affecting part of a market-data record. */
  datatype Change =
    | LevelUpdate(side: Side, price: Price, level: Level)
    | BookClear(clearSide: ClearSide, scope: Scope, fromPrice: Price)

  /** Both sides of one book, keyed by raw price. */
  datatype Book = Book(bids: map<Price, Level>, asks: map<Price, Level>)
  {
    function On(side: Side): map<Price, Level> {
      if side == Bid then bids else asks
    }

    function With(side: Side, levels: map<Price, Level>): Book {
      if side == Bid then this.(bids := levels) else this.(asks := levels)
    }

    /** Strictly crossed: some bid is above some ask. */
    ghost predicate Crossed() {
      exists p, q :: p in bids && q in asks && p > q
    }
  }

  const EMPTY := Book(map[], map[])

  /** A BookClear naming a reserved value, or bounding both sides by one price. */
  predicate Malformed(c: Change) {
    c.BookClear? &&
    (c.clearSide == ClearReserved || c.scope == ScopeReserved ||
     (c.scope == FromPrice && c.clearSide == ClearBoth))
  }

  predicate ClearsSide(c: Change, side: Side)
    requires c.BookClear?
  {
    c.clearSide == ClearBoth || c.clearSide == (if side == Bid then ClearBid else ClearAsk)
  }

  /** Whether a well-formed BookClear removes the level at `price` of `side`. */
  predicate Clears(c: Change, side: Side, price: Price)
    requires c.BookClear?
  {
    ClearsSide(c, side) &&
    (c.scope == EntireSide || (if side == Bid then price <= c.fromPrice else price >= c.fromPrice))
  }

  function Put(levels: map<Price, Level>, price: Price, level: Level): map<Price, Level> {
    if level.qty == 0 then levels - {price} else levels[price := level]
  }

  function Survivors(levels: map<Price, Level>, c: Change, side: Side): map<Price, Level>
    requires c.BookClear?
  {
    map p | p in levels && !Clears(c, side, p) :: levels[p]
  }

  /** The book after a change. A malformed BookClear changes nothing. */
  function Apply(b: Book, c: Change): Book {
    match c
    case LevelUpdate(side, price, level) => b.With(side, Put(b.On(side), price, level))
    case BookClear(_, _, _) =>
      if Malformed(c) then b
      else Book(Survivors(b.bids, c, Bid), Survivors(b.asks, c, Ask))
  }

  /** One level of a snapshot, and the book a list of them builds. The shadow
      stores every level it is given, whatever its quantity. */
  datatype SnapLevel = SnapLevel(side: Side, price: Price, level: Level)

  function AddLevel(b: Book, l: SnapLevel): Book {
    b.With(l.side, b.On(l.side)[l.price := l.level])
  }

  ghost function BookOf(levels: seq<SnapLevel>): Book {
    if levels == [] then EMPTY
    else AddLevel(BookOf(levels[..|levels| - 1]), levels[|levels| - 1])
  }

  /** Record `j` is the last of a snapshot to name this price of this side. */
  predicate ListsLast(levels: seq<SnapLevel>, j: nat, side: Side, price: Price) {
    && j < |levels| && levels[j].side == side && levels[j].price == price
    && forall i :: j < i < |levels| ==> levels[i].side != side || levels[i].price != price
  }

  /** A snapshot's book has exactly the prices its records name, each at the last level
      named for it, however often a price is repeated. */
  lemma {:induction false} BookOfListsLast(levels: seq<SnapLevel>, side: Side, price: Price)
    ensures price in BookOf(levels).On(side) <==> exists j: nat :: ListsLast(levels, j, side, price)
    ensures forall j: nat :: ListsLast(levels, j, side, price) ==>
              price in BookOf(levels).On(side) && BookOf(levels).On(side)[price] == levels[j].level
  {
    if levels != [] {
      var n := |levels| - 1;
      var before, last := levels[..n], levels[n];
      BookOfListsLast(before, side, price);
      if last.side == side && last.price == price {
        assert ListsLast(levels, n, side, price);
      } else {
        SameLast(levels, side, price);
        assert BookOf(levels).On(side) == BookOf(before).On(side) || last.side == side;
        if j: nat :| ListsLast(before, j, side, price) {
          assert ListsLast(levels, j, side, price);
        }
      }
    }
  }

  /** A record that does not name a price leaves open which was the last to. */
  lemma SameLast(levels: seq<SnapLevel>, side: Side, price: Price)
    requires levels != []
    requires var last := levels[|levels| - 1]; last.side != side || last.price != price
    ensures forall j: nat :: ListsLast(levels, j, side, price) <==> ListsLast(levels[..|levels| - 1], j, side, price)
    ensures forall j: nat :: ListsLast(levels, j, side, price) ==> levels[j] == levels[..|levels| - 1][j]
  {
    var before := levels[..|levels| - 1];
    assert forall i :: 0 <= i < |before| ==> before[i] == levels[i];
  }

  /** A clear leaves exactly what it does not cover, clears nothing more the second time,
      and one of both whole sides is a clear of each. */
  lemma ClearLeaves(b: Book, c: Change, side: Side, price: Price)
    requires c.BookClear? && !Malformed(c)
    ensures var r := Apply(b, c).On(side);
            && (price in r <==> price in b.On(side) && !Clears(c, side, price))
            && (price in r ==> r[price] == b.On(side)[price])
    ensures Apply(Apply(b, c), c) == Apply(b, c)
    ensures c.clearSide == ClearBoth ==>
              Apply(b, c) == EMPTY ==
              Apply(Apply(b, BookClear(ClearBid, EntireSide, 0)), BookClear(ClearAsk, EntireSide, 0))
  {
  }
}
