/** Walks that drop one channel's keys from a map or a set, and two facts about maps and
    sets. */
module ChannelMaps {
  import opened ShardSpec

  lemma UpdateTwice<K, V>(m: map<K, V>, k: K, a: V, b: V)
    ensures m[k := a][k := b] == m[k := b]
  {
  }

  lemma {:induction false} SubsetSize<T>(a: set<T>, b: set<T>)
    requires a <= b
    ensures |a| <= |b|
  {
    if a != {} {
      var x :| x in a;
      SubsetSize(a - {x}, b - {x});
    }
  }

  method OtherChannels<V>(m: map<Key, V>, ch: nat) returns (r: map<Key, V>)
    ensures r == m - (set k | k in m && k.ch == ch)
  {
    r := m;
    var todo := m.Keys;
    while todo != {}
      invariant todo <= m.Keys
      invariant forall k :: k in r <==> k in m && (k in todo || k.ch != ch)
      invariant forall k :: k in r ==> r[k] == m[k]
      decreases todo
    {
      var k :| k in todo;
      todo := todo - {k};
      if k.ch == ch {
        r := r - {k};
      }
    }
  }

  method OtherChannelKeys(ks: set<Key>, ch: nat) returns (r: set<Key>)
    ensures r == set k | k in ks && k.ch != ch
  {
    r := ks;
    var todo := ks;
    while todo != {}
      invariant todo <= ks && forall k :: k in r <==> k in ks && (k in todo || k.ch != ch)
      decreases todo
    {
      var k :| k in todo;
      todo := todo - {k};
      if k.ch == ch {
        r := r - {k};
      }
    }
  }
}
