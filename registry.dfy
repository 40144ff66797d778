/** The `debugs` store: a dictionary from tag to logger handle that every
    attach writes, last writer wins. */
module Registries {
  import Logging

  class Registry {
    var debugs: map<string, Logging.Handle>

    constructor ()
      ensures debugs == map[]
    {
      debugs := map[];
    }

    /** `debugs[tag] = h`: overwrites any earlier entry for `tag` and leaves
        every other key as it was. */
    method Store(tag: string, h: Logging.Handle)
      modifies this
      ensures debugs == old(debugs)[tag := h] == Replay(old(debugs), [(tag, h)])
      ensures tag in debugs && debugs[tag] == h
      ensures forall t :: t != tag ==> (t in debugs <==> t in old(debugs))
      ensures forall t :: t != tag && t in debugs ==> debugs[t] == old(debugs)[t]
    {
      debugs := debugs[tag := h];
    }

    /** `debugs = {}` */
    method Clear()
      modifies this
      ensures debugs == map[]
    {
      debugs := map[];
    }
  }

  /** The store after a series of writes, applied in order. */
  function Replay<V>(m: map<string, V>, writes: seq<(string, V)>): map<string, V>
    decreases |writes|
  {
    if writes == [] then m else Replay(m[writes[0].0 := writes[0].1], writes[1..])
  }

  /** One more write at the end of a series is one more `debugs[t] = v`
      on the store the series left. */
  lemma {:induction false} ReplaySnoc<V>(m: map<string, V>, writes: seq<(string, V)>, t: string, v: V)
    ensures Replay(m, writes + [(t, v)]) == Replay(m, writes)[t := v]
    decreases |writes|
  {
    if writes != [] {
      assert (writes + [(t, v)])[1..] == writes[1..] + [(t, v)];
      ReplaySnoc(m[writes[0].0 := writes[0].1], writes[1..], t, v);
    }
  }

  /** The store's keys only grow: they are the old keys plus every key written. */
  lemma {:induction false} ReplayKeys<V>(m: map<string, V>, writes: seq<(string, V)>)
    ensures Replay(m, writes).Keys == m.Keys + set i | 0 <= i < |writes| :: writes[i].0
    decreases |writes|
  {
    if writes != [] {
      var m' := m[writes[0].0 := writes[0].1];
      ReplayKeys(m', writes[1..]);
      var rest := set i | 0 <= i < |writes[1..]| :: writes[1..][i].0;
      var all := set i | 0 <= i < |writes| :: writes[i].0;
      assert all == {writes[0].0} + rest by {
        forall t | t in all ensures t in {writes[0].0} + rest {
          var i :| 0 <= i < |writes| && writes[i].0 == t;
          if i > 0 { assert writes[1..][i - 1].0 == t; }
        }
        forall t | t in rest ensures t in all {
          var i :| 0 <= i < |writes[1..]| && writes[1..][i].0 == t;
          assert writes[i + 1].0 == t;
        }
      }
    }
  }

  /** Last writer wins: a key holds the value of its last write. */
  lemma {:induction false} ReplayLastWriterWins<V>(m: map<string, V>, writes: seq<(string, V)>, i: nat)
    requires i < |writes|
    requires forall j :: i < j < |writes| ==> writes[j].0 != writes[i].0
    ensures writes[i].0 in Replay(m, writes) && Replay(m, writes)[writes[i].0] == writes[i].1
    decreases |writes|
  {
    var m' := m[writes[0].0 := writes[0].1];
    if i == 0 {
      ReplayUntouched(m', writes[1..], writes[0].0);
    } else {
      ReplayLastWriterWins(m', writes[1..], i - 1);
    }
  }

  /** A key that no write names keeps its old entry, or stays absent. */
  lemma {:induction false} ReplayUntouched<V>(m: map<string, V>, writes: seq<(string, V)>, t: string)
    requires forall j :: 0 <= j < |writes| ==> writes[j].0 != t
    ensures t in Replay(m, writes) <==> t in m
    ensures t in m ==> Replay(m, writes)[t] == m[t]
    decreases |writes|
  {
    if writes != [] {
      assert writes[0].0 != t;
      ReplayUntouched(m[writes[0].0 := writes[0].1], writes[1..], t);
    }
  }
}
