/** The Market-by-Order shard's channels: who is known, which snapshot a row is stamped
    with, and what a wipe takes, over every run. */
module OrderChannels {
  import opened Wrappers
  import InstrumentSpec
  import O = OrderSpec
  import opened B = OrderBooks

  // ---- instruments ----

  /** A definition or a begin makes an instrument known; nothing else does. */
  predicate Introduces(m: Message, k: Key) {
    m.Rec? && m.rec.At() == k && (m.rec.Defined? || m.rec.GroupBegin?)
  }

  predicate Wipes(m: Message, k: Key) {
    m.Wipe? && m.ch == k.ch
  }

  /** Message `j` introduced the instrument and no wipe followed. */
  predicate IntroducedAt(inbox: seq<Message>, j: nat, k: Key) {
    j < |inbox| && Introduces(inbox[j], k) && forall i :: j < i < |inbox| ==> !Wipes(inbox[i], k)
  }

  lemma IntroducedMore(before: seq<Message>, m: Message, j: nat, k: Key)
    ensures IntroducedAt(before + [m], j, k) <==>
            if j == |before| then Introduces(m, k) else IntroducedAt(before, j, k) && !Wipes(m, k)
  {
    var inbox := before + [m];
    assert inbox[|before|] == m;
    assert forall i :: 0 <= i < |before| ==> inbox[i] == before[i];
  }

  lemma WithKnows(s: O.OrderShard, own: Key, share: O.Share, k: Key)
    ensures k in s.With(own, share).insts <==> if k == own then share.inst.Some? else k in s.insts
  {
  }

  lemma RecordKnows(s: O.OrderShard, rec: O.OrderRecord, k: Key)
    ensures k in O.HandleRecord(s, rec).insts <==> Introduces(Rec(rec), k) || k in s.insts
  {
    var own := rec.At();
    match rec
    case OrderChange(_, _, _, d) => WithKnows(s, own, O.Changed(s.ShareOf(own), d), k);
    case GroupBegin(_, _, _, h) => WithKnows(s, own, O.Begun(s.ShareOf(own), h), k);
    case GroupOrder(ch, _, _, id, orderId, o) =>
      if ch in s.open {
        var to := s.open[ch].inst;
        WithKnows(s, to, O.Ordered(s.ShareOf(to), id, orderId, o), k);
      }
    case GroupEnd(_, _, _, id, anchor) => WithKnows(s, own, O.Ended(s.ShareOf(own), id, anchor), k);
    case BookReset(_, _, _, anchor) => WithKnows(s, own, O.Cleared(s.ShareOf(own), anchor), k);
    case _ =>
  }

  lemma KnownStep(s: O.OrderShard, m: Message, k: Key)
    ensures k in Step(s, m).insts <==> Introduces(m, k) || (k in s.insts && !Wipes(m, k))
  {
    if m.Rec? {
      RecordKnows(s, m.rec, k);
    }
  }

  /** Over any run: exactly the instruments introduced since the last wipe of their channel
      are known. */
  lemma {:induction false} KnownExactly(inbox: seq<Message>, k: Key)
    ensures k in After(inbox).insts <==> exists j: nat :: IntroducedAt(inbox, j, k)
  {
    if inbox != [] {
      var before, m := inbox[..|inbox| - 1], inbox[|inbox| - 1];
      assert inbox == before + [m];
      KnownExactly(before, k);
      KnownStep(After(before), m, k);
      IntroducedMore(before, m, |before|, k);
      if j: nat :| IntroducedAt(before, j, k) {
        IntroducedMore(before, m, j, k);
      }
      if j: nat :| IntroducedAt(inbox, j, k) {
        IntroducedMore(before, m, j, k);
      }
    }
  }

  /** A wipe takes everything of its channel and nothing of any other. */
  lemma WipeTakesOneChannel(s: O.OrderShard, ch: nat, k: Key)
    ensures var t := Step(s, Wipe(ch));
            && ch !in t.open
            && (k.ch == ch ==> k !in t.insts && k !in t.refdata && k !in t.bufs && k !in t.ctx)
            && (k.ch != ch ==>
                  && t.ShareOf(k) == s.ShareOf(k) && (k in t.refdata <==> k in s.refdata)
                  && O.Get(t.ctx, k) == O.Get(s.ctx, k) && O.Get(t.open, k.ch) == O.Get(s.open, k.ch))
  {
  }

  // ---- the snapshot a row is stamped with ----

  /** The context of an instrument, as its begins and ends tell: its last begin, until that
      group's own end. Declined groups have one too. */
  function ContextOf(inbox: seq<Message>, k: Key): Option<O.OrderHeader> {
    if inbox == [] then None
    else
      var before := ContextOf(inbox[..|inbox| - 1], k);
      match inbox[|inbox| - 1]
      case Wipe(ch) => if ch == k.ch then None else before
      case Drop => None
      case Rec(rec) =>
        if rec.At() != k then before
        else if rec.GroupBegin? then Some(rec.header)
        else if rec.GroupEnd? && before.Some? && before.value.id == rec.id then None
        else before
  }

  lemma ContextStep(s: O.OrderShard, m: Message, k: Key)
    ensures var before := O.Get(s.ctx, k);
            O.Get(Step(s, m).ctx, k) ==
            match m
            case Wipe(ch) => if ch == k.ch then None else before
            case Drop => None
            case Rec(rec) =>
              if rec.At() != k then before
              else if rec.GroupBegin? then Some(rec.header)
              else if rec.GroupEnd? && before.Some? && before.value.id == rec.id then None
              else before
  {
  }

  lemma {:induction false} ContextIsTheWire(inbox: seq<Message>, k: Key)
    ensures O.Get(After(inbox).ctx, k) == ContextOf(inbox, k)
  {
    if inbox != [] {
      ContextIsTheWire(inbox[..|inbox| - 1], k);
      ContextStep(After(inbox[..|inbox| - 1]), inbox[|inbox| - 1], k);
    }
  }

  /** Over any run: while a group is open its instrument has that group's context, so the
      row an order is stored under and the shadow it goes into name one instrument. */
  lemma {:induction false} OpenHasItsContext(inbox: seq<Message>, ch: nat)
    ensures var g := OpenOn(inbox, ch);
            g.Some? ==> g.value.inst.ch == ch && ContextOf(inbox, g.value.inst).Some? &&
                        ContextOf(inbox, g.value.inst).value.id == g.value.id
  {
    if inbox != [] {
      OpenHasItsContext(inbox[..|inbox| - 1], ch);
    }
  }
}
