/** Query strings as the browser's URLSearchParams keeps them: an ordered
    list of name/value pairs in which a name may repeat. The operations
    follow the URL Standard (WHATWG): `get` returns the first value,
    `append` adds a pair at the end, `delete` removes every pair with the
    name, and `set` overwrites the first pair with the name, removes the
    others, and appends when the name is absent. Django's QueryDict, which
    reads the same string on the server, returns the LAST value from `get`. */
module QueryParams {
  import opened Common

  type Params = seq<(string, string)>

  /** The values stored under name `k`, in order. */
  function Values(p: Params, k: string): (r: seq<string>)
    ensures |r| <= |p|
  {
    if p == [] then []
    else (if p[0].0 == k then [p[0].1] else []) + Values(p[1..], k)
  }

  /** `URLSearchParams.get`: the first value, or null. */
  function Get(p: Params, k: string): (r: Option<string>)
    ensures r.None? <==> Values(p, k) == []
    ensures r.Some? ==> r.value == Values(p, k)[0]
  {
    var vs := Values(p, k);
    if vs == [] then None else Some(vs[0])
  }

  /** Django's `QueryDict.get`: the last value, or None. */
  function GetLast(p: Params, k: string): (r: Option<string>)
    ensures r.None? <==> Values(p, k) == []
    ensures r.Some? ==> r.value == Values(p, k)[|Values(p, k)| - 1]
  {
    var vs := Values(p, k);
    if vs == [] then None else Some(vs[|vs| - 1])
  }

  /** The position of the first pair named `k`, or `|p|` when there is none. */
  function FirstKeyIndex(p: Params, k: string): (i: nat)
    ensures i <= |p|
    ensures i < |p| ==> p[i].0 == k
    ensures forall j :: 0 <= j < i ==> p[j].0 != k
  {
    if p == [] then 0 else if p[0].0 == k then 0 else 1 + FirstKeyIndex(p[1..], k)
  }

  /** `get` reads the value of the first pair with the name. */
  lemma {:induction false} GetIsFirstPair(p: Params, k: string)
    ensures Get(p, k) == if FirstKeyIndex(p, k) < |p| then Some(p[FirstKeyIndex(p, k)].1) else None
    decreases |p|
  {
    if p != [] && p[0].0 != k {
      GetIsFirstPair(p[1..], k);
      assert Values(p, k) == Values(p[1..], k);
    }
  }

  /** The pairs whose name is not in `ks`, in their original order. */
  function Without(p: Params, ks: set<string>): (r: Params)
    ensures |r| <= |p|
    ensures forall i :: 0 <= i < |r| ==> r[i].0 !in ks
    ensures forall i :: 0 <= i < |p| && p[i].0 !in ks ==> p[i] in r
    ensures forall e :: e in r ==> e in p
  {
    if p == [] then []
    else (if p[0].0 in ks then [] else [p[0]]) + Without(p[1..], ks)
  }

  /** `URLSearchParams.delete`. */
  function Delete(p: Params, k: string): (r: Params)
    ensures Values(r, k) == []
    ensures forall k' :: k' != k ==> Values(r, k') == Values(p, k')
  {
    ValuesWithout(p, {k});
    Without(p, {k})
  }

  /** `URLSearchParams.append`. */
  function Append(p: Params, k: string, v: string): (r: Params)
    ensures Values(r, k) == Values(p, k) + [v]
    ensures forall k' :: k' != k ==> Values(r, k') == Values(p, k')
  {
    ValuesConcatAll(p, [(k, v)]);
    p + [(k, v)]
  }

  /** `URLSearchParams.set`. */
  function Set(p: Params, k: string, v: string): (r: Params)
    ensures Values(r, k) == [v]
    ensures Without(r, {k}) == Without(p, {k})
    ensures forall k' :: k' != k ==> Values(r, k') == Values(p, k')
  {
    if p == [] then [(k, v)]
    else if p[0].0 == k then
      var rest := Without(p[1..], {k});
      ValuesWithout(p[1..], {k});
      WithoutTwice(p[1..], {k}, {k});
      assert {k} + {k} == {k};
      assert ([(k, v)] + rest)[1..] == rest;
      [(k, v)] + rest
    else
      [p[0]] + Set(p[1..], k, v)
  }

  lemma {:induction false} ValuesConcat(p: Params, q: Params, k: string)
    ensures Values(p + q, k) == Values(p, k) + Values(q, k)
    decreases |p|
  {
    if p == [] {
      assert p + q == q;
    } else {
      assert (p + q)[0] == p[0] && (p + q)[1..] == p[1..] + q;
      ValuesConcat(p[1..], q, k);
      var head := if p[0].0 == k then [p[0].1] else [];
      calc {
        Values(p + q, k);
        head + Values(p[1..] + q, k);
        head + (Values(p[1..], k) + Values(q, k));
        (head + Values(p[1..], k)) + Values(q, k);
        Values(p, k) + Values(q, k);
      }
    }
  }

  lemma {:induction false} ValuesConcatAll(p: Params, q: Params)
    ensures forall k :: Values(p + q, k) == Values(p, k) + Values(q, k)
  {
    forall k ensures Values(p + q, k) == Values(p, k) + Values(q, k) {
      ValuesConcat(p, q, k);
    }
  }

  /** Removing names leaves the values of every other name as they were. */
  lemma {:induction false} ValuesWithout(p: Params, ks: set<string>)
    ensures forall k :: Values(Without(p, ks), k) == if k in ks then [] else Values(p, k)
    decreases |p|
  {
    if p != [] {
      ValuesWithout(p[1..], ks);
      var head: Params := if p[0].0 in ks then [] else [p[0]];
      forall k ensures Values(Without(p, ks), k) == if k in ks then [] else Values(p, k) {
        ValuesConcat(head, Without(p[1..], ks), k);
      }
    }
  }

  lemma {:induction false} WithoutTwice(p: Params, a: set<string>, b: set<string>)
    ensures Without(Without(p, a), b) == Without(p, a + b)
    decreases |p|
  {
    if p != [] {
      WithoutTwice(p[1..], a, b);
      var head: Params := if p[0].0 in a then [] else [p[0]];
      WithoutConcat(head, Without(p[1..], a), b);
    }
  }

  lemma {:induction false} WithoutConcat(p: Params, q: Params, ks: set<string>)
    ensures Without(p + q, ks) == Without(p, ks) + Without(q, ks)
    decreases |p|
  {
    if p == [] {
      assert p + q == q;
    } else {
      assert (p + q)[0] == p[0] && (p + q)[1..] == p[1..] + q;
      WithoutConcat(p[1..], q, ks);
      var head: Params := if p[0].0 in ks then [] else [p[0]];
      calc {
        Without(p + q, ks);
        head + Without(p[1..] + q, ks);
        head + (Without(p[1..], ks) + Without(q, ks));
        (head + Without(p[1..], ks)) + Without(q, ks);
        Without(p, ks) + Without(q, ks);
      }
    }
  }

  /** Removing a set of names after `set` on one of them undoes the `set`:
      every other pair keeps its place. */
  lemma {:induction false} WithoutAfterSet(p: Params, k: string, v: string, ks: set<string>)
    requires k in ks
    ensures Without(Set(p, k, v), ks) == Without(p, ks)
  {
    var r := Set(p, k, v);
    calc {
      Without(r, ks);
      { assert ks == {k} + ks; }
      Without(r, {k} + ks);
      { WithoutTwice(r, {k}, ks); }
      Without(Without(r, {k}), ks);
      Without(Without(p, {k}), ks);
      { WithoutTwice(p, {k}, ks); assert {k} + ks == ks; }
      Without(p, ks);
    }
  }

  lemma {:induction false} WithoutAfterDelete(p: Params, k: string, ks: set<string>)
    requires k in ks
    ensures Without(Delete(p, k), ks) == Without(p, ks)
  {
    WithoutTwice(p, {k}, ks);
    assert {k} + ks == ks;
  }

  /** `set` on a name that does not occur appends one pair at the end. */
  lemma {:induction false} SetWhenAbsent(p: Params, k: string, v: string)
    requires forall i :: 0 <= i < |p| ==> p[i].0 != k
    ensures Set(p, k, v) == p + [(k, v)]
    decreases |p|
  {
    if p != [] {
      SetWhenAbsent(p[1..], k, v);
      assert p == [p[0]] + p[1..];
    }
  }

  /** Where `set` puts the pair: in place of the first pair with the name,
      the later pairs with the name removed, or at the end when the name is
      absent. */
  lemma {:induction false} SetPosition(p: Params, k: string, v: string)
    ensures Set(p, k, v) == SetSpot(p, k, v)
    decreases |p|
  {
    if p == [] {
    } else if p[0].0 == k {
      assert FirstKeyIndex(p, k) == 0 && p[..0] == [];
    } else {
      SetPosition(p[1..], k, v);
      SetSpotCons(p, k, v);
    }
  }

  /** The place `set` writes to, stated by position. */
  function SetSpot(p: Params, k: string, v: string): Params
  {
    var i := FirstKeyIndex(p, k);
    if i < |p| then p[..i] + [(k, v)] + Without(p[i + 1..], {k}) else p + [(k, v)]
  }

  /** A pair with another name in front moves the spot one place on. */
  lemma SetSpotCons(p: Params, k: string, v: string)
    requires p != [] && p[0].0 != k
    ensures SetSpot(p, k, v) == [p[0]] + SetSpot(p[1..], k, v)
  {
    var tail := p[1..];
    var j := FirstKeyIndex(tail, k);
    assert FirstKeyIndex(p, k) == 1 + j;
    if j < |tail| {
      assert p[..1 + j] == [p[0]] + tail[..j];
      assert p[1 + j + 1..] == tail[j + 1..];
    } else {
      assert p == [p[0]] + tail;
    }
  }
}
