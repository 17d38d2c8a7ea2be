/** A HashMap built by successive puts: which keys it ends up holding and
    which value each key holds, for a list of puts and for a chain of
    conditional groups of puts. */
module Puts {
  import opened Common

  /** One HashMap.put. */
  datatype Put = Put(key: string, value: Value)

  /** The keys a sequence of puts writes. */
  function KeysOf(ps: seq<Put>): set<string> {
    if ps == [] then {} else {ps[0].key} + KeysOf(ps[1..])
  }

  lemma KeysOfAppend(a: seq<Put>, b: seq<Put>)
    ensures KeysOf(a + b) == KeysOf(a) + KeysOf(b)
  {
    if a != [] {
      assert (a + b)[1..] == a[1..] + b;
      KeysOfAppend(a[1..], b);
    } else {
      assert a + b == b;
    }
  }

  /** The keys of a short list of puts, as a set display. */
  lemma KeysOf1(ps: seq<Put>)
    requires |ps| == 1
    ensures KeysOf(ps) == {ps[0].key}
  {
    assert KeysOf(ps[1..]) == {};
  }

  lemma KeysOf2(ps: seq<Put>)
    requires |ps| == 2
    ensures KeysOf(ps) == {ps[0].key, ps[1].key}
  {
    KeysOf1(ps[1..]);
  }

  lemma KeysOf3(ps: seq<Put>)
    requires |ps| == 3
    ensures KeysOf(ps) == {ps[0].key, ps[1].key, ps[2].key}
  {
    KeysOf2(ps[1..]);
  }

  lemma KeysOf4(ps: seq<Put>)
    requires |ps| == 4
    ensures KeysOf(ps) == {ps[0].key, ps[1].key, ps[2].key, ps[3].key}
  {
    KeysOf3(ps[1..]);
  }

  lemma KeysOf5(ps: seq<Put>)
    requires |ps| == 5
    ensures KeysOf(ps) == {ps[0].key, ps[1].key, ps[2].key, ps[3].key, ps[4].key}
  {
    KeysOf4(ps[1..]);
  }

  /** Successive HashMap.put calls on `m`, in order. */
  function Apply(m: map<string, Value>, ps: seq<Put>): map<string, Value>
  {
    if ps == [] then m else Apply(m, ps[..|ps| - 1])[ps[|ps| - 1].key := ps[|ps| - 1].value]
  }

  /** One more put after `ps`. */
  lemma ApplySnoc(m: map<string, Value>, ps: seq<Put>, p: Put)
    ensures Apply(m, ps + [p]) == Apply(m, ps)[p.key := p.value]
  {
    assert (ps + [p])[..|ps|] == ps;
  }

  /** Putting `a` then `b` is putting `a + b`. */
  lemma {:induction false} ApplyAppend(m: map<string, Value>, a: seq<Put>, b: seq<Put>)
    ensures Apply(m, a + b) == Apply(Apply(m, a), b)
  {
    if b == [] {
      assert a + b == a;
    } else {
      var n := |b| - 1;
      assert a + b == (a + b[..n]) + [b[n]];
      assert b == b[..n] + [b[n]];
      ApplyAppend(m, a, b[..n]);
      ApplySnoc(m, a + b[..n], b[n]);
      ApplySnoc(Apply(m, a), b[..n], b[n]);
    }
  }

  /** The value of the last put of `key` in `ps`, if any: what a reader of the
      map sees once every put has happened. */
  function LastValue(ps: seq<Put>, key: string): Option<Value>
  {
    if ps == [] then None
    else if ps[|ps| - 1].key == key then Some(ps[|ps| - 1].value)
    else LastValue(ps[..|ps| - 1], key)
  }

  lemma {:induction false} LastValueKeys(ps: seq<Put>, key: string)
    ensures LastValue(ps, key).Some? <==> key in KeysOf(ps)
  {
    if ps != [] {
      var n := |ps| - 1;
      assert ps == ps[..n] + [ps[n]];
      KeysOfAppend(ps[..n], [ps[n]]);
      assert KeysOf([ps[n]]) == {ps[n].key};
      LastValueKeys(ps[..n], key);
    }
  }

  lemma {:induction false} LastValueAppend(a: seq<Put>, b: seq<Put>, key: string)
    ensures LastValue(a + b, key) == if LastValue(b, key).Some? then LastValue(b, key) else LastValue(a, key)
  {
    if b == [] {
      assert a + b == a;
    } else {
      var n := |b| - 1;
      assert (a + b)[..|a + b| - 1] == a + b[..n];
      LastValueAppend(a, b[..n], key);
    }
  }

  /** A put that no later put of the same key follows is the one a reader sees. */
  lemma {:induction false} LastValueAt(ps: seq<Put>, j: int)
    requires 0 <= j < |ps|
    requires forall j2 :: j < j2 < |ps| ==> ps[j2].key != ps[j].key
    ensures LastValue(ps, ps[j].key) == Some(ps[j].value)
  {
    var n := |ps| - 1;
    if j < n {
      assert ps[..n][j] == ps[j];
      LastValueAt(ps[..n], j);
    }
  }

  /** Reading a key after the puts: the last put of the key wins; a key no put
      names keeps its old value; nothing else is added. */
  lemma {:induction false} ApplyLookup(m: map<string, Value>, ps: seq<Put>, key: string)
    ensures key in Apply(m, ps) <==> key in m || LastValue(ps, key).Some?
    ensures LastValue(ps, key).Some? ==> Apply(m, ps)[key] == LastValue(ps, key).value
    ensures LastValue(ps, key).None? && key in m ==> Apply(m, ps)[key] == m[key]
  {
    if ps != [] {
      ApplyLookup(m, ps[..|ps| - 1], key);
    }
  }

  lemma {:induction false} ApplyKeys(m: map<string, Value>, ps: seq<Put>)
    ensures Apply(m, ps).Keys == m.Keys + KeysOf(ps)
  {
    forall key ensures key in Apply(m, ps) <==> key in m.Keys + KeysOf(ps) {
      ApplyLookup(m, ps, key);
      LastValueKeys(ps, key);
    }
  }

  /** The puts of a chain of tests `ks`, where `step` gives the puts of one test. */
  function Chain<K>(step: K -> seq<Put>, ks: seq<K>): seq<Put>
  {
    if ks == [] then [] else Chain(step, ks[..|ks| - 1]) + step(ks[|ks| - 1])
  }

  lemma {:induction false} ChainAppend<K>(step: K -> seq<Put>, a: seq<K>, b: seq<K>)
    ensures Chain(step, a + b) == Chain(step, a) + Chain(step, b)
  {
    if b == [] {
      assert a + b == a;
    } else {
      var n := |b| - 1;
      assert (a + b)[..|a + b| - 1] == a + b[..n];
      ChainAppend(step, a, b[..n]);
    }
  }

  lemma {:induction false} ChainKeys<K>(step: K -> seq<Put>, ks: seq<K>, key: string)
    ensures key in KeysOf(Chain(step, ks)) <==> exists i :: 0 <= i < |ks| && key in KeysOf(step(ks[i]))
  {
    if ks != [] {
      var n := |ks| - 1;
      var pre := ks[..n];
      ChainKeys(step, pre, key);
      KeysOfAppend(Chain(step, pre), step(ks[n]));
      if key in KeysOf(Chain(step, pre)) {
        var i :| 0 <= i < n && key in KeysOf(step(pre[i]));
        assert pre[i] == ks[i];
      } else if key !in KeysOf(step(ks[n])) {
        forall i | 0 <= i < |ks| ensures key !in KeysOf(step(ks[i])) {
          if i < n {
            assert ks[i] == pre[i];
          }
        }
      }
    }
  }

  /** When the test at position i is the last one in the chain to write
      `key`, the chain leaves that test's value for the key. */
  lemma ChainLastWriter<K>(step: K -> seq<Put>, ks: seq<K>, i: int, key: string)
    requires 0 <= i < |ks| && key in KeysOf(step(ks[i]))
    requires forall j :: i < j < |ks| ==> key !in KeysOf(step(ks[j]))
    ensures LastValue(Chain(step, ks), key).Some?
    ensures LastValue(Chain(step, ks), key) == LastValue(step(ks[i]), key)
  {
    var pre, post := ks[..i], ks[i + 1..];
    assert ks == pre + [ks[i]] + post;
    ChainAppend(step, pre + [ks[i]], post);
    ChainAppend(step, pre, [ks[i]]);
    assert Chain(step, [ks[i]]) == step(ks[i]) by {
      assert [ks[i]][..0] == [];
    }
    forall j | 0 <= j < |post| ensures key !in KeysOf(step(post[j])) {
      assert post[j] == ks[i + 1 + j];
    }
    ChainKeys(step, post, key);
    LastValueKeys(Chain(step, post), key);
    LastValueAppend(Chain(step, pre) + step(ks[i]), Chain(step, post), key);
    LastValueKeys(step(ks[i]), key);
    LastValueAppend(Chain(step, pre), step(ks[i]), key);
  }

  lemma LastValueSnoc(ps: seq<Put>, p: Put, key: string)
    ensures LastValue(ps + [p], key) == if p.key == key then Some(p.value) else LastValue(ps, key)
  {
    assert (ps + [p])[..|ps|] == ps;
  }

  lemma LastValueSkip(a: seq<Put>, b: seq<Put>, key: string)
    requires key !in KeysOf(b)
    ensures LastValue(a + b, key) == LastValue(a, key)
  {
    LastValueKeys(b, key);
    LastValueAppend(a, b, key);
  }

  /** Own puts, a chain of groups, more own puts, and a second chain of
      groups: the shape of the map the plugin builds for a block. */
  function Layout<K>(own: seq<Put>, step: K -> seq<Put>, before: seq<K>, mid: seq<Put>, after: seq<K>): seq<Put> {
    own + Chain(step, before) + mid + Chain(step, after)
  }

  /** A key no group writes takes its value from the own puts alone. */
  lemma LayoutOwnKey<K>(own: seq<Put>, step: K -> seq<Put>, before: seq<K>, mid: seq<Put>, after: seq<K>, key: string)
    requires forall k :: key !in KeysOf(step(k))
    ensures LastValue(Layout(own, step, before, mid, after), key) == LastValue(own + mid, key)
  {
    ChainKeys(step, before, key);
    ChainKeys(step, after, key);
    LastValueSkip(own + Chain(step, before) + mid, Chain(step, after), key);
    LastValueAppend(own + Chain(step, before), mid, key);
    LastValueSkip(own, Chain(step, before), key);
    LastValueAppend(own, mid, key);
  }

  /** The layout writes the own keys and every key of every group in it. */
  lemma LayoutKeys<K>(own: seq<Put>, step: K -> seq<Put>, before: seq<K>, mid: seq<Put>, after: seq<K>, key: string)
    ensures key in KeysOf(Layout(own, step, before, mid, after)) <==>
      || key in KeysOf(own) || key in KeysOf(mid)
      || (exists i :: 0 <= i < |before| && key in KeysOf(step(before[i])))
      || (exists i :: 0 <= i < |after| && key in KeysOf(step(after[i])))
  {
    KeysOfAppend(own + Chain(step, before) + mid, Chain(step, after));
    KeysOfAppend(own + Chain(step, before), mid);
    KeysOfAppend(own, Chain(step, before));
    ChainKeys(step, before, key);
    ChainKeys(step, after, key);
  }

  lemma LayoutLastWriterBefore<K>(own: seq<Put>, step: K -> seq<Put>, before: seq<K>, mid: seq<Put>, after: seq<K>, i: int, key: string)
    requires 0 <= i < |before| && key in KeysOf(step(before[i]))
    requires forall j :: i < j < |before| ==> key !in KeysOf(step(before[j]))
    requires forall j :: 0 <= j < |after| ==> key !in KeysOf(step(after[j]))
    requires key !in KeysOf(mid)
    ensures LastValue(Layout(own, step, before, mid, after), key) == LastValue(step(before[i]), key)
  {
    ChainLastWriter(step, before, i, key);
    ChainKeys(step, after, key);
    LastValueSkip(own + Chain(step, before) + mid, Chain(step, after), key);
    LastValueSkip(own + Chain(step, before), mid, key);
    LastValueAppend(own, Chain(step, before), key);
  }

  lemma LayoutLastWriterAfter<K>(own: seq<Put>, step: K -> seq<Put>, before: seq<K>, mid: seq<Put>, after: seq<K>, i: int, key: string)
    requires 0 <= i < |after| && key in KeysOf(step(after[i]))
    requires forall j :: i < j < |after| ==> key !in KeysOf(step(after[j]))
    ensures LastValue(Layout(own, step, before, mid, after), key) == LastValue(step(after[i]), key)
  {
    ChainLastWriter(step, after, i, key);
    LastValueAppend(own + Chain(step, before) + mid, Chain(step, after), key);
  }

  /** The group latest in the whole chain to write `key` decides its value,
      provided the own puts between the two chains do not write it. */
  lemma LayoutLastWriter<K>(own: seq<Put>, step: K -> seq<Put>, before: seq<K>, mid: seq<Put>, after: seq<K>, i: int, key: string)
    requires 0 <= i < |before + after| && key in KeysOf(step((before + after)[i]))
    requires forall j :: i < j < |before + after| ==> key !in KeysOf(step((before + after)[j]))
    requires key !in KeysOf(mid)
    ensures LastValue(Layout(own, step, before, mid, after), key).Some?
    ensures LastValue(Layout(own, step, before, mid, after), key) == LastValue(step((before + after)[i]), key)
  {
    var ks := before + after;
    var n := |before|;
    LastValueKeys(step(ks[i]), key);
    if i < n {
      forall j | i < j < n ensures key !in KeysOf(step(before[j])) {
        assert before[j] == ks[j];
      }
      forall j | 0 <= j < |after| ensures key !in KeysOf(step(after[j])) {
        assert after[j] == ks[n + j];
      }
      LayoutLastWriterBefore(own, step, before, mid, after, i, key);
    } else {
      forall j | i - n < j < |after| ensures key !in KeysOf(step(after[j])) {
        assert after[j] == ks[n + j];
      }
      LayoutLastWriterAfter(own, step, before, mid, after, i - n, key);
    }
  }
}
