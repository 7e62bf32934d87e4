/** What a run of order messages leaves of one order, told from the messages alone. */
module OrderLives {
  import opened Wrappers
  import O = OrderSpec
  import opened B = OrderBooks

  /** The order resting under an id on a side, if any. */
  function Resting(b: O.Orders, ask: bool, id: nat): Option<O.Order> {
    if ask then (if id in b.asks then Some(b.asks[id]) else None)
    else if id in b.bids then Some(b.bids[id]) else None
  }

  /** What executing `qty` leaves of an order. */
  function Remains(o: O.Order, fullFill: bool, qty: nat): Option<O.Order> {
    if fullFill || o.qty <= qty then None else Some(O.Order(o.ask, o.flags, o.price, o.qty - qty))
  }

  /** One message, one id, one side. A new order takes the place of its id on its own side;
      a cancel clears the id from both; an execution takes from the bid of that id, or
      from the ask when there is no such bid. Every other order stays as it is. */
  lemma OneLeaves(b: O.Orders, op: O.Op, ask: bool, id: nat)
    ensures Resting(O.Apply(b, op), ask, id) ==
            match op
            case Add(n, o) => if n == id && o.ask == ask then Some(o) else Resting(b, ask, id)
            case Cancel(n) => if n == id then None else Resting(b, ask, id)
            case Execute(n, fullFill, qty) =>
              if n == id && Resting(b, ask, id).Some? && (ask ==> Resting(b, false, id).None?)
              then Remains(Resting(b, ask, id).value, fullFill, qty)
              else Resting(b, ask, id)
  {
  }

  /** The messages name the order only to execute it. */
  predicate OnlyExecuted(ds: seq<Delta>, id: nat) {
    forall j :: 0 <= j < |ds| ==> ds[j].op.id == id ==> ds[j].op.Execute?
  }

  function Executed(ds: seq<Delta>, id: nat): nat {
    if ds == [] then 0
    else
      var n := |ds| - 1;
      Executed(ds[..n], id) + if ds[n].op.Execute? && ds[n].op.id == id then ds[n].op.qty else 0
  }

  /** Some execution filled the order: it said so, or it brought the total to `qty`. */
  ghost predicate Filled(ds: seq<Delta>, id: nat, qty: nat) {
    exists j: nat :: FilledAt(ds, id, qty, j)
  }

  predicate FilledAt(ds: seq<Delta>, id: nat, qty: nat, j: nat) {
    && j < |ds| && ds[j].op.Execute? && ds[j].op.id == id
    && (ds[j].op.fullFill || Executed(ds[..j + 1], id) >= qty)
  }

  lemma FilledShift(ds: seq<Delta>, id: nat, qty: nat)
    requires ds != []
    ensures Filled(ds, id, qty) <==> Filled(ds[..|ds| - 1], id, qty) || FilledAt(ds, id, qty, |ds| - 1)
  {
    var before := ds[..|ds| - 1];
    forall j: nat | j < |before| ensures FilledAt(ds, id, qty, j) <==> FilledAt(before, id, qty, j) {
      assert before[..j + 1] == ds[..j + 1];
    }
  }

  /** Quantity is conserved: over a run that only executes a bid, the bid is gone exactly
      when an execution filled it, and otherwise rests with what it had less all that
      was executed. */
  lemma {:induction false} ExecutionsAddUp(b: O.Orders, ds: seq<Delta>, id: nat)
    requires Resting(b, false, id).Some? && OnlyExecuted(ds, id)
    ensures var o, r := Resting(b, false, id).value, Resting(Folded(b, ds), false, id);
            && (r.None? <==> Filled(ds, id, o.qty))
            && (r.Some? ==> r.value.qty + Executed(ds, id) == o.qty && r.value == o.(qty := r.value.qty))
    decreases |ds|
  {
    if ds != [] {
      var n := |ds| - 1;
      assert OnlyExecuted(ds[..n], id);
      ExecutionsAddUp(b, ds[..n], id);
      FilledShift(ds, id, Resting(b, false, id).value.qty);
      OneLeaves(Folded(b, ds[..n]), ds[n].op, false, id);
      assert ds[..n + 1] == ds;
    }
  }

  /** The same for an ask whose id rests on no bid. */
  lemma {:induction false} AskExecutionsAddUp(b: O.Orders, ds: seq<Delta>, id: nat)
    requires Resting(b, true, id).Some? && Resting(b, false, id).None? && OnlyExecuted(ds, id)
    ensures Resting(Folded(b, ds), false, id).None?
    ensures var o, r := Resting(b, true, id).value, Resting(Folded(b, ds), true, id);
            && (r.None? <==> Filled(ds, id, o.qty))
            && (r.Some? ==> r.value.qty + Executed(ds, id) == o.qty && r.value == o.(qty := r.value.qty))
    decreases |ds|
  {
    if ds != [] {
      var n := |ds| - 1;
      assert OnlyExecuted(ds[..n], id);
      AskExecutionsAddUp(b, ds[..n], id);
      FilledShift(ds, id, Resting(b, true, id).value.qty);
      OneLeaves(Folded(b, ds[..n]), ds[n].op, true, id);
      OneLeaves(Folded(b, ds[..n]), ds[n].op, false, id);
      assert ds[..n + 1] == ds;
    }
  }
}
