/**
 Ordered string-keyed maps as sequences of pairs. This is the shape of the
 library's `MessageData` container and of every `Dictionary<string, ...>` the
 code builds: insertion order is kept, the indexer (`d[k] = v`) overwrites a
 present key in place and appends a new one, and `Add` throws on a present key.
 */
module OrderedMap {
  import opened Results

  type Entries<V> = seq<(string, V)>

  /** The keys occurring in `m`. */
  function KeySet<V>(m: Entries<V>): set<string>
  {
    if |m| == 0 then {} else {m[0].0} + KeySet(m[1..])
  }

  /** No key occurs twice: the invariant of a dictionary. */
  predicate UniqueKeys<V>(m: Entries<V>)
  {
    |m| == 0 || (m[0].0 !in KeySet(m[1..]) && UniqueKeys(m[1..]))
  }

  /** Keys and lookups of a one-entry dictionary literal. */
  lemma SingleLiteral<V>(a: (string, V))
    ensures KeySet([a]) == {a.0} && UniqueKeys([a])
    ensures forall k :: Find([a], k) == if k == a.0 then Some(a.1) else None
  {
    assert [a][1..] == [];
  }

  /** Keys and lookups of a two-entry dictionary literal. */
  lemma SmallLiterals<V>(a: (string, V), b: (string, V))
    ensures KeySet([a]) == {a.0} && UniqueKeys([a])
    ensures KeySet([a, b]) == {a.0, b.0}
    ensures UniqueKeys([a, b]) <==> a.0 != b.0
    ensures forall k :: Find([a], k) == if k == a.0 then Some(a.1) else None
    ensures forall k :: Find([a, b], k)
                     == if k == a.0 then Some(a.1) else if k == b.0 then Some(b.1) else None
  {
    assert [a][1..] == [];
    assert [a, b][1..] == [b];
    assert [b][1..] == [];
  }

  /** Dictionary lookup: the value stored under `k`, if any. */
  function Find<V>(m: Entries<V>, k: string): (r: Option<V>)
    ensures r.None? <==> k !in KeySet(m)
  {
    if |m| == 0 then None
    else if m[0].0 == k then Some(m[0].1)
    else Find(m[1..], k)
  }

  /** The value of the LAST occurrence of `k` in a list of writes, if any. */
  function LastValue<V>(es: Entries<V>, k: string): (r: Option<V>)
    ensures r.None? <==> k !in KeySet(es)
  {
    if |es| == 0 then None
    else
      var later := LastValue(es[1..], k);
      if later.Some? then later
      else if es[0].0 == k then Some(es[0].1)
      else None
  }

  /**
   The dictionary indexer `m[k] := v`: a present key keeps its position and
   takes the new value, an absent key is appended; nothing else changes.
   */
  function Set<V>(m: Entries<V>, k: string, v: V): (r: Entries<V>)
    ensures Find(r, k) == Some(v)
    ensures forall k' :: k' != k ==> Find(r, k') == Find(m, k')
    ensures KeySet(r) == KeySet(m) + {k}
    ensures UniqueKeys(m) ==> UniqueKeys(r)
    ensures k in KeySet(m) ==> |r| == |m|
    ensures k !in KeySet(m) ==> r == m + [(k, v)]
  {
    if |m| == 0 then [(k, v)]
    else if m[0].0 == k then [(k, v)] + m[1..]
    else
      var rest := Set(m[1..], k, v);
      assert k !in KeySet(m) ==> [m[0]] + rest == m + [(k, v)] by {
        if k !in KeySet(m) {
          assert m == [m[0]] + m[1..];
        }
      }
      [m[0]] + rest
  }

  lemma {:induction false} KeySetByIndex<V>(m: Entries<V>, k: string)
    ensures k in KeySet(m) <==> exists i :: 0 <= i < |m| && m[i].0 == k
  {
    if |m| > 0 {
      KeySetByIndex(m[1..], k);
      if k in KeySet(m[1..]) {
        var i :| 0 <= i < |m[1..]| && m[1..][i].0 == k;
        assert m[i + 1].0 == k;
      }
      if exists i :: 0 < i < |m| && m[i].0 == k {
        var i :| 0 < i < |m| && m[i].0 == k;
        assert m[1..][i - 1].0 == k;
      }
    }
  }

  /** Keys pairwise distinct by position make a dictionary. */
  lemma {:induction false} UniqueKeysByIndex<V>(m: Entries<V>)
    requires forall i, j :: 0 <= i < j < |m| ==> m[i].0 != m[j].0
    ensures UniqueKeys(m)
  {
    if |m| > 0 {
      KeySetByIndex(m[1..], m[0].0);
      UniqueKeysByIndex(m[1..]);
    }
  }

  /** In a dictionary, looking up the key at position `i` finds the value at position `i`. */
  lemma {:induction false} FindByIndex<V>(m: Entries<V>, i: int)
    requires UniqueKeys(m) && 0 <= i < |m|
    ensures Find(m, m[i].0) == Some(m[i].1)
  {
    if i > 0 {
      FindByIndex(m[1..], i - 1);
      KeySetByIndex(m[1..], m[i].0);
      assert m[1..][i - 1] == m[i];
    }
  }

  /**
   In a dictionary, writing a present key replaces its entry where it stands:
   every position keeps its key, and only the written key's value changes.
   */
  lemma {:induction false} SetInPlace<V>(m: Entries<V>, k: string, v: V)
    requires UniqueKeys(m) && k in KeySet(m)
    ensures |Set(m, k, v)| == |m|
    ensures forall i :: 0 <= i < |m| ==> Set(m, k, v)[i] == (if m[i].0 == k then (k, v) else m[i])
    decreases |m|
  {
    var r := Set(m, k, v);
    if m[0].0 == k {
      forall i | 1 <= i < |m|
        ensures m[i].0 != k
      {
        KeySetByIndex(m[1..], k);
        assert m[1..][i - 1] == m[i];
      }
    } else {
      SetInPlace(m[1..], k, v);
      var rest := Set(m[1..], k, v);
      assert r == [m[0]] + rest;
      forall i | 1 <= i < |m|
        ensures r[i] == (if m[i].0 == k then (k, v) else m[i])
      {
        assert r[i] == rest[i - 1];
        assert m[1..][i - 1] == m[i];
      }
    }
  }

  /** Writing keys not present yet appends them in order. */
  lemma {:induction false} SetAllFresh<V>(m: Entries<V>, es: Entries<V>)
    requires UniqueKeys(es) && KeySet(m) !! KeySet(es)
    ensures SetAll(m, es) == m + es
    decreases |es|
  {
    if |es| > 0 {
      FreshStep(m, es);
      SetAllFresh(m + [es[0]], es[1..]);
      AppendHead(m, es);
    }
  }

  lemma AppendHead<V>(m: Entries<V>, es: Entries<V>)
    requires |es| > 0
    ensures m + [es[0]] + es[1..] == m + es
  {
    assert es == [es[0]] + es[1..];
  }

  /** One step of `SetAllFresh`: the first fresh write is an append. */
  lemma FreshStep<V>(m: Entries<V>, es: Entries<V>)
    requires |es| > 0 && UniqueKeys(es) && KeySet(m) !! KeySet(es)
    ensures SetAll(m, es) == SetAll(m + [es[0]], es[1..])
    ensures UniqueKeys(es[1..]) && KeySet(m + [es[0]]) !! KeySet(es[1..])
  {
    var e := es[0];
    assert e.0 in KeySet(es);
    assert Set(m, e.0, e.1) == m + [e];
    assert KeySet([e]) == {e.0} by { assert [e][1..] == []; }
    KeySetAppend(m, [e]);
  }

  /** Every key drawn from `names` at each position means every key is in `names`. */
  lemma {:induction false} KeySetWithin<V>(m: Entries<V>, names: set<string>)
    requires forall i :: 0 <= i < |m| ==> m[i].0 in names
    ensures KeySet(m) <= names
    decreases |m|
  {
    if |m| > 0 {
      assert forall i :: 0 <= i < |m[1..]| ==> m[1..][i] == m[i + 1];
      KeySetWithin(m[1..], names);
    }
  }

  /** A dictionary has as many entries as keys. */
  lemma {:induction false} UniqueKeysSize<V>(m: Entries<V>)
    requires UniqueKeys(m)
    ensures |KeySet(m)| == |m|
  {
    if |m| > 0 {
      UniqueKeysSize(m[1..]);
    }
  }

  /** Applies the writes `es` one after the other, each with `Set`. */
  function SetAll<V>(m: Entries<V>, es: Entries<V>): (r: Entries<V>)
    ensures KeySet(r) == KeySet(m) + KeySet(es)
    ensures UniqueKeys(m) ==> UniqueKeys(r)
    decreases |es|
  {
    if |es| == 0 then m else SetAll(Set(m, es[0].0, es[0].1), es[1..])
  }

  /** After a series of writes, every key holds the value written last. */
  lemma {:induction false} SetAllFind<V>(m: Entries<V>, es: Entries<V>, k: string)
    ensures Find(SetAll(m, es), k)
         == if LastValue(es, k).Some? then LastValue(es, k) else Find(m, k)
    decreases |es|
  {
    if |es| > 0 {
      SetAllFind(Set(m, es[0].0, es[0].1), es[1..], k);
    }
  }

  /** The last write in a concatenation: the second part wins. */
  lemma {:induction false} LastValueAppend<V>(a: Entries<V>, b: Entries<V>, k: string)
    ensures LastValue(a + b, k) == if LastValue(b, k).Some? then LastValue(b, k) else LastValue(a, k)
    decreases |a|
  {
    if |a| > 0 {
      assert (a + b)[0] == a[0];
      assert (a + b)[1..] == a[1..] + b;
      LastValueAppend(a[1..], b, k);
    } else {
      assert a + b == b;
    }
  }

  /** In a list without repeated keys the last write is the only one. */
  lemma {:induction false} LastValueUnique<V>(es: Entries<V>, k: string)
    requires UniqueKeys(es)
    ensures LastValue(es, k) == Find(es, k)
    decreases |es|
  {
    if |es| > 0 {
      LastValueUnique(es[1..], k);
    }
  }

  /** `Dictionary.Add`: appends a new key, throws on a present one. */
  function Add<V>(m: Entries<V>, k: string, v: V): (r: Result<Entries<V>>)
    ensures r.Ok? <==> k !in KeySet(m)
    ensures r.Fail? ==> r.error == DuplicateKey(k)
    ensures r.Ok? ==> r.value == m + [(k, v)]
    ensures r.Ok? ==> Find(r.value, k) == Some(v) && KeySet(r.value) == KeySet(m) + {k}
    ensures r.Ok? && UniqueKeys(m) ==> UniqueKeys(r.value)
  {
    if k in KeySet(m) then Fail(DuplicateKey(k))
    else
      SingleLiteral((k, v));
      FindAppend(m, [(k, v)], k);
      KeySetAppend(m, [(k, v)]);
      UniqueKeysAppend(m, [(k, v)]);
      Ok(m + [(k, v)])
  }

  /** `Add` for each entry of `es` in turn; the first duplicate throws. */
  function AddAll<V>(m: Entries<V>, es: Entries<V>): Result<Entries<V>>
    decreases |es|
  {
    if |es| == 0 then Ok(m)
    else
      var m' :- Add(m, es[0].0, es[0].1);
      AddAll(m', es[1..])
  }

  lemma {:induction false} KeySetAppend<V>(a: Entries<V>, b: Entries<V>)
    ensures KeySet(a + b) == KeySet(a) + KeySet(b)
    decreases |a|
  {
    if |a| > 0 {
      assert (a + b)[0] == a[0];
      assert (a + b)[1..] == a[1..] + b;
      KeySetAppend(a[1..], b);
    } else {
      assert a + b == b;
    }
  }

  /** Lookup in a concatenation: the first part wins. */
  lemma {:induction false} FindAppend<V>(a: Entries<V>, b: Entries<V>, k: string)
    ensures Find(a + b, k) == if k in KeySet(a) then Find(a, k) else Find(b, k)
    decreases |a|
  {
    if |a| > 0 {
      assert (a + b)[0] == a[0];
      assert (a + b)[1..] == a[1..] + b;
      FindAppend(a[1..], b, k);
    } else {
      assert a + b == b;
    }
  }

  lemma {:induction false} UniqueKeysAppend<V>(a: Entries<V>, b: Entries<V>)
    ensures UniqueKeys(a + b) <==> UniqueKeys(a) && UniqueKeys(b) && KeySet(a) !! KeySet(b)
    decreases |a|
  {
    if |a| > 0 {
      assert (a + b)[1..] == a[1..] + b;
      UniqueKeysAppend(a[1..], b);
      KeySetAppend(a[1..], b);
    } else {
      assert a + b == b;
    }
  }

  /**
   Adding all of `es` to a dictionary succeeds exactly when `es` repeats no
   key and shares none with `m`; the result then holds every entry of both,
   in order.
   */
  lemma {:induction false} AddAllSucceedsIffDisjoint<V>(m: Entries<V>, es: Entries<V>)
    requires UniqueKeys(m)
    ensures AddAll(m, es).Ok? <==> UniqueKeys(es) && KeySet(m) !! KeySet(es)
    ensures AddAll(m, es).Ok? ==> AddAll(m, es).value == m + es
    decreases |es|
  {
    if |es| > 0 {
      var k := es[0].0;
      if k in KeySet(m) {
        assert !(KeySet(m) !! KeySet(es));
      } else {
        var m' := m + [es[0]];
        UniqueKeysAppend(m, [es[0]]);
        KeySetAppend(m, [es[0]]);
        AddAllSucceedsIffDisjoint(m', es[1..]);
        assert m' + es[1..] == m + es;
      }
    }
  }
}
