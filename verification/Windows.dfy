/** The loop stage of the redundant-feed dedupe: newest-wins keys, and exactly-once
    identities over a ring of the last 256. */
module Windows {
  import opened Wrappers
  import Claims

  type U64 = Claims.U64

  const IDENTITY_WINDOW := 256

  datatype Admission = Applied | Duplicate | Late

  datatype Order = Unordered | Supersedes(key: U64) | Identity(key: U64)

  // ---- the window's specification ----

  /** The applied keys the window has let go, and those it still holds, of all the
      keys it ever applied. */
  function Gone(history: seq<U64>): seq<U64> {
    if |history| <= IDENTITY_WINDOW then [] else history[..|history| - IDENTITY_WINDOW]
  }

  function Recent(history: seq<U64>): seq<U64> {
    if |history| <= IDENTITY_WINDOW then history else history[|history| - IDENTITY_WINDOW..]
  }

  predicate AtOrBelow(key: U64, gone: seq<U64>) {
    exists e :: e in gone && key <= e
  }

  predicate Distinct(keys: seq<U64>) {
    forall j, k :: 0 <= j < k < |keys| ==> keys[j] != keys[k]
  }

  function Verdict(history: seq<U64>, key: U64): Admission {
    if key in Recent(history) then Duplicate
    else if AtOrBelow(key, Gone(history)) then Late
    else Applied
  }

  function After(history: seq<U64>, key: U64): seq<U64> {
    if Verdict(history, key) == Applied then history + [key] else history
  }

  /** All that is applied when `keys` arrive. */
  function AfterAll(keys: seq<U64>): seq<U64> {
    if keys == [] then [] else After(AfterAll(keys[..|keys| - 1]), keys[|keys| - 1])
  }

  lemma Halves(history: seq<U64>)
    ensures history == Gone(history) + Recent(history)
  {
  }

  /** A verdict looks at 256 keys and one bound, and decides over the whole past: a
      key is applied exactly when it never was and lies above all that was let go. */
  lemma AppliedExactlyWhen(history: seq<U64>, key: U64)
    ensures Verdict(history, key) == Applied <==> key !in history && forall e :: e in Gone(history) ==> key > e
    ensures key !in history ==>
              Verdict(history, key) != Duplicate && (Verdict(history, key) == Late <==> AtOrBelow(key, Gone(history)))
  {
    Halves(history);
    if key in Gone(history) {
      assert AtOrBelow(key, Gone(history));
    }
  }

  /** Over a run of any length no key is applied twice. */
  lemma {:induction false} ExactlyOnce(keys: seq<U64>)
    ensures Distinct(AfterAll(keys))
  {
    if keys != [] {
      var history, key := AfterAll(keys[..|keys| - 1]), keys[|keys| - 1];
      ExactlyOnce(keys[..|keys| - 1]);
      AppliedExactlyWhen(history, key);
    }
  }

  /** What was let go stays let go. */
  lemma GoneGrows(history: seq<U64>, key: U64)
    ensures Gone(history) <= Gone(After(history, key))
  {
  }

  lemma LateStays(history: seq<U64>, key: U64, other: U64)
    requires Verdict(history, key) == Late
    ensures Verdict(After(history, other), key) == Late
  {
    var next := After(history, other);
    GoneGrows(history, other);
    var e :| e in Gone(history) && key <= e;
    assert e in Gone(next);
    assert forall x :: x in Recent(next) ==> x in Recent(history) || (x == other && next != history);
  }

  /** All that has been applied when `more` arrives after a history. */
  function AfterEach(history: seq<U64>, more: seq<U64>): seq<U64>
    decreases |more|
  {
    if more == [] then history else AfterEach(After(history, more[0]), more[1..])
  }

  /** A key found late is late for good, whatever comes after it. */
  lemma {:induction false} LateIsForever(history: seq<U64>, key: U64, more: seq<U64>)
    requires Verdict(history, key) == Late
    ensures Verdict(AfterEach(history, more), key) == Late
    decreases |more|
  {
    if more != [] {
      LateStays(history, key, more[0]);
      LateIsForever(After(history, more[0]), key, more[1..]);
    }
  }

  // ---- the ring ----

  lemma SlotsApart(j: int, n: int)
    requires n - IDENTITY_WINDOW < j < n
    ensures j % IDENTITY_WINDOW != n % IDENTITY_WINDOW
  {
  }

  class Window {
    const keys: array<U64>
    var len: nat
    var next: nat
    var evicted: Option<U64>
    /** Every key ever applied, in order. */
    ghost var history: seq<U64>

    ghost predicate Valid()
      reads this, keys
    {
      RingOk() && EvictedOk()
    }

    /** The ring holds the last `len` keys applied, each at its position modulo 256. */
    ghost predicate RingOk()
      reads this, keys
    {
      && keys.Length == IDENTITY_WINDOW
      && next == |history| % IDENTITY_WINDOW
      && len == (if |history| < IDENTITY_WINDOW then |history| else IDENTITY_WINDOW)
      && forall j :: |history| - len <= j < |history| ==> keys[j % IDENTITY_WINDOW] == history[j]
    }

    /** `evicted` is the greatest of what was let go. */
    ghost predicate EvictedOk()
      reads this
    {
      && (evicted.None? <==> Gone(history) == [])
      && (evicted.Some? ==> evicted.value in Gone(history) && forall e :: e in Gone(history) ==> e <= evicted.value)
    }

    constructor ()
      ensures Valid() && history == [] && fresh(keys)
    {
      keys := new U64[IDENTITY_WINDOW](i => 0);
      len, next := 0, 0;
      evicted := None;
      history := [];
    }

    /** Whether the ring holds a key: whether it was among the last 256 applied. */
    method Contains(key: U64) returns (found: bool)
      requires Valid()
      ensures found <==> key in Recent(history)
    {
      for j := 0 to len
        invariant forall i :: 0 <= i < j ==> keys[i] != key
      {
        if keys[j] == key {
          SlotIsRecent(j);
          return true;
        }
      }
      found := false;
      if key in Recent(history) {
        RecentIsSlot(key);
      }
    }

    lemma SlotIsRecent(j: nat)
      requires Valid() && j < len
      ensures keys[j] in Recent(history)
    {
      var n := |history|;
      var at := if len < IDENTITY_WINDOW then j
                else if j < n % IDENTITY_WINDOW then n - n % IDENTITY_WINDOW + j
                else n - n % IDENTITY_WINDOW + j - IDENTITY_WINDOW;
      assert n - len <= at < n && at % IDENTITY_WINDOW == j;
      assert Recent(history)[at - (n - len)] == history[at];
    }

    lemma RecentIsSlot(key: U64)
      requires Valid() && key in Recent(history)
      ensures exists j :: 0 <= j < len && keys[j] == key
    {
      var at :| 0 <= at < |Recent(history)| && Recent(history)[at] == key;
      var whole := |history| - len + at;
      assert history[whole] == key;
      assert keys[whole % IDENTITY_WINDOW] == key;
      assert len < IDENTITY_WINDOW ==> whole % IDENTITY_WINDOW == whole;
    }

    method Admit(key: U64) returns (r: Admission)
      requires Valid()
      modifies this`len, this`next, this`evicted, this`history, keys
      ensures Valid() && r == Verdict(old(history), key) && history == After(old(history), key)
    {
      var found := Contains(key);
      if found {
        return Duplicate;
      }
      if evicted.Some? && key <= evicted.value {
        return Late;
      }
      if len == IDENTITY_WINDOW {
        var leaving := keys[next];
        LeavingIsOldest(key);
        evicted := Some(if evicted.Some? && evicted.value > leaving then evicted.value else leaving);
      }
      Store(key);
      return Applied;
    }

    method Store(key: U64)
      requires RingOk()
      modifies this`len, this`next, this`history, keys
      ensures RingOk() && history == old(history) + [key]
    {
      ghost var n, was := |history|, keys[..];
      keys[next] := key;
      assert keys[..] == was[next := key];
      forall j | n - len <= j < n && n - IDENTITY_WINDOW < j ensures keys[j % IDENTITY_WINDOW] == history[j] {
        SlotsApart(j, n);
      }
      next := (next + 1) % IDENTITY_WINDOW;
      len := if len + 1 < IDENTITY_WINDOW then len + 1 else IDENTITY_WINDOW;
      history := history + [key];
    }

    /** The slot to be overwritten holds the oldest key still held. */
    lemma LeavingIsOldest(key: U64)
      requires RingOk() && len == IDENTITY_WINDOW
      ensures keys[next] == history[|history| - IDENTITY_WINDOW]
      ensures Gone(history + [key]) == Gone(history) + [history[|history| - IDENTITY_WINDOW]]
    {
      var n := |history|;
      assert (n - IDENTITY_WINDOW) % IDENTITY_WINDOW == n % IDENTITY_WINDOW;
    }
  }

  // ---- the loop stage ----

  class Dedupe {
    /** The last applied Supersedes key as stored, by instrument. */
    var applied: seq<U64>
    var seen: seq<Window?>
    ghost var repr: set<object>

    ghost predicate Valid()
      reads this, repr
    {
      && this in repr
      && (forall i :: 0 <= i < |seen| && seen[i] != null ==> Owned(seen[i]) && seen[i].Valid())
      && (forall i, j :: 0 <= i < |seen| && 0 <= j < |seen| && i != j && seen[i] != null && seen[j] != null ==>
            Apart(seen[i], seen[j]))
    }

    ghost predicate Owned(w: Window)
      reads this`repr
    {
      w in repr && w.keys in repr
    }

    static predicate Apart(v: Window, w: Window) {
      v != w && v.keys != w.keys
    }

    ghost function AppliedAt(inst: nat): U64
      reads this`applied
    {
      if inst < |applied| then applied[inst] else 0
    }

    /** The identities applied for an instrument so far. */
    ghost function HistoryAt(inst: nat): seq<U64>
      reads this, repr
      requires Valid()
    {
      if inst < |seen| && seen[inst] != null then seen[inst].history else []
    }

    constructor ()
      ensures Valid() && fresh(repr)
      ensures forall i :: AppliedAt(i) == 0 && HistoryAt(i) == []
    {
      applied, seen := [], [];
      repr := {this};
    }

    /** What the loop decides for one event, and what it remembers of it. An
        instrument beyond the table is always applied and never remembered. */
    method Judge(inst: nat, order: Order) returns (r: Admission)
      requires Valid()
      modifies repr
      ensures Valid() && fresh(repr - old(repr))
      ensures order.Supersedes? && inst < Claims.MAX_TRACKED ==>
                && (r == Applied <==> old(AppliedAt(inst)) < Claims.Stored(order.key))
                && AppliedAt(inst) == if r == Applied then Claims.Stored(order.key) else old(AppliedAt(inst))
      ensures order.Identity? && inst < Claims.MAX_TRACKED ==>
                r == Verdict(old(HistoryAt(inst)), order.key) && HistoryAt(inst) == After(old(HistoryAt(inst)), order.key)
      ensures order.Unordered? || inst >= Claims.MAX_TRACKED ==> r == Applied
      ensures forall i :: i != inst || !order.Supersedes? || inst >= Claims.MAX_TRACKED ==> AppliedAt(i) == old(AppliedAt(i))
      ensures forall i :: i != inst || !order.Identity? || inst >= Claims.MAX_TRACKED ==> HistoryAt(i) == old(HistoryAt(i))
    {
      if inst >= Claims.MAX_TRACKED {
        return Applied;
      }
      match order {
        case Unordered => return Applied;
        case Supersedes(key) => r := JudgeKey(inst, key);
        case Identity(key) => r := JudgeIdentity(inst, key);
      }
    }

    method JudgeKey(inst: nat, key: U64) returns (r: Admission)
      modifies this`applied
      ensures r == Applied <==> old(AppliedAt(inst)) < Claims.Stored(key)
      ensures AppliedAt(inst) == if r == Applied then Claims.Stored(key) else old(AppliedAt(inst))
      ensures forall i :: i != inst ==> AppliedAt(i) == old(AppliedAt(i))
    {
      if |applied| <= inst {
        applied := applied + seq(inst + 1 - |applied|, i => 0);
      }
      var stored := Claims.Stored(key);
      if applied[inst] >= stored {
        return Duplicate;
      }
      applied := applied[inst := stored];
      return Applied;
    }

    method GrowSeen(inst: nat)
      requires Valid()
      modifies this`seen
      ensures Valid() && inst < |seen|
      ensures forall i :: HistoryAt(i) == old(HistoryAt(i))
    {
      if |seen| <= inst {
        seen := seen + seq(inst + 1 - |seen|, i => null);
      }
    }

    method NewWindow(inst: nat) returns (w: Window)
      requires Valid() && inst < |seen| && seen[inst] == null
      modifies this`seen, this`repr
      ensures Valid() && fresh(repr - old(repr)) && old(repr) <= repr
      ensures inst < |seen| && seen[inst] == w && w.history == []
      ensures forall i :: HistoryAt(i) == old(HistoryAt(i))
    {
      w := new Window();
      assert forall i :: 0 <= i < |seen| && seen[i] != null ==> Owned(seen[i]) && seen[i].Valid() && Apart(seen[i], w);
      seen := seen[inst := w];
      repr := repr + {w, w.keys};
    }

    /** The window of an instrument, made on its first identity. */
    method WindowOf(inst: nat) returns (w: Window)
      requires Valid()
      modifies this`seen, this`repr
      ensures Valid() && fresh(repr - old(repr)) && old(repr) <= repr
      ensures inst < |seen| && seen[inst] == w && w.history == old(HistoryAt(inst))
      ensures forall i :: HistoryAt(i) == old(HistoryAt(i))
    {
      GrowSeen(inst);
      if seen[inst] == null {
        w := NewWindow(inst);
      } else {
        w := seen[inst];
      }
    }

    method JudgeIdentity(inst: nat, key: U64) returns (r: Admission)
      requires Valid()
      modifies repr
      ensures Valid() && fresh(repr - old(repr)) && applied == old(applied)
      ensures r == Verdict(old(HistoryAt(inst)), key) && HistoryAt(inst) == After(old(HistoryAt(inst)), key)
      ensures forall i :: i != inst ==> HistoryAt(i) == old(HistoryAt(i))
    {
      var w := WindowOf(inst);
      r := AdmitAt(inst, w, key);
    }

    method AdmitAt(inst: nat, w: Window, key: U64) returns (r: Admission)
      requires Valid() && inst < |seen| && seen[inst] == w
      modifies w, w.keys
      ensures Valid()
      ensures r == Verdict(old(w.history), key) && w.history == After(old(w.history), key)
      ensures forall i :: i != inst ==> HistoryAt(i) == old(HistoryAt(i))
    {
      assert Owned(w) && w.Valid();
      assert forall i :: 0 <= i < |seen| && i != inst && seen[i] != null ==> Apart(seen[i], w) && seen[i].Valid();
      r := w.Admit(key);
      forall i | 0 <= i < |seen| && seen[i] != null ensures Owned(seen[i]) && seen[i].Valid() {
        if i != inst {
          assert Apart(seen[i], w);
        }
      }
    }
  }
}
