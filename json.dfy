/** The structured side of the converter: nested JSON-like data whose objects
    behave like Python dicts (insertion-ordered, one value per key). */
module JsonData {
  import opened Wrappers

  /** A text leaf, `None` (a list item read from an element without text),
      an object (ordered key/value pairs) or a list. */
  datatype Json = Str(s: string) | Null | Obj(fields: seq<(string, Json)>) | Arr(items: seq<Json>)

  type Fields = seq<(string, Json)>

  function Keys(fs: Fields): (ks: seq<string>)
    ensures |ks| == |fs|
  {
    if fs == [] then [] else [fs[0].0] + Keys(fs[1..])
  }

  /** What a Python dict guarantees: no key occurs twice. */
  predicate UniqueKeys(fs: Fields) {
    fs == [] || (fs[0].0 !in Keys(fs[1..]) && UniqueKeys(fs[1..]))
  }

  /** `d.get(k)`. */
  function Lookup(fs: Fields, k: string): (r: Option<Json>)
    ensures r.None? <==> k !in Keys(fs)
  {
    if fs == [] then None
    else if fs[0].0 == k then Some(fs[0].1)
    else Lookup(fs[1..], k)
  }

  /** `d[k] = v`: a new key goes to the end; an existing key keeps its
      position and gets the new value. */
  function Assign(fs: Fields, k: string, v: Json): (r: Fields)
    ensures Lookup(r, k) == Some(v)
  {
    if fs == [] then [(k, v)]
    else if fs[0].0 == k then [(k, v)] + fs[1..]
    else [fs[0]] + Assign(fs[1..], k, v)
  }

  /** Assigning one key leaves every other key's value alone. */
  lemma {:induction false} AssignOther(fs: Fields, k: string, v: Json, k': string)
    requires k' != k
    ensures Lookup(Assign(fs, k, v), k') == Lookup(fs, k')
    decreases |fs|
  {
    if fs != [] && fs[0].0 != k {
      AssignOther(fs[1..], k, v, k');
    }
  }

  /** A key already present keeps its position; a new key goes last. */
  lemma {:induction false} AssignKeys(fs: Fields, k: string, v: Json)
    ensures Keys(Assign(fs, k, v)) == if k in Keys(fs) then Keys(fs) else Keys(fs) + [k]
    decreases |fs|
  {
    if fs != [] && fs[0].0 != k {
      AssignKeys(fs[1..], k, v);
      assert Keys([fs[0]] + Assign(fs[1..], k, v)) == [fs[0].0] + Keys(Assign(fs[1..], k, v));
    } else if fs != [] {
      assert Keys([(k, v)] + fs[1..]) == [k] + Keys(fs[1..]);
    }
  }

  /** Assigning into a dict keeps it a dict. */
  lemma {:induction false} AssignUnique(fs: Fields, k: string, v: Json)
    requires UniqueKeys(fs)
    ensures UniqueKeys(Assign(fs, k, v))
    decreases |fs|
  {
    if fs != [] && fs[0].0 != k {
      AssignUnique(fs[1..], k, v);
      AssignKeys(fs[1..], k, v);
      assert Assign(fs, k, v)[1..] == Assign(fs[1..], k, v);
    } else if fs != [] {
      assert Assign(fs, k, v)[1..] == fs[1..];
    }
  }

  /** The assignments `d[k1] = v1; d[k2] = v2; ...` in order. */
  function AssignAll(fs: Fields, es: Fields): Fields
    decreases |es|
  {
    if es == [] then fs else AssignAll(Assign(fs, es[0].0, es[0].1), es[1..])
  }

  /** The value of the last assignment to `k` in `es`, if any. */
  function LastValue(es: Fields, k: string): (r: Option<Json>)
    ensures r.None? <==> k !in Keys(es)
  {
    if es == [] then None
    else
      var rest := LastValue(es[1..], k);
      if rest.Some? then rest else if es[0].0 == k then Some(es[0].1) else None
  }

  /** After a run of assignments, each key holds the value last assigned to
      it, and keys never assigned keep their old value. */
  lemma {:induction false} AssignAllLookup(fs: Fields, es: Fields, k: string)
    ensures Lookup(AssignAll(fs, es), k) == if k in Keys(es) then LastValue(es, k) else Lookup(fs, k)
    decreases |es|
  {
    if es != [] {
      AssignAllLookup(Assign(fs, es[0].0, es[0].1), es[1..], k);
      if es[0].0 != k {
        AssignOther(fs, es[0].0, es[0].1, k);
      }
    }
  }

  /** Assignments never move or drop a key: the keys held before stay, in
      their order, at the front. */
  lemma {:induction false} AssignAllKeepsOrder(fs: Fields, es: Fields)
    ensures |fs| <= |AssignAll(fs, es)| && Keys(AssignAll(fs, es))[..|fs|] == Keys(fs)
    decreases |es|
  {
    if es != [] {
      var fs' := Assign(fs, es[0].0, es[0].1);
      AssignKeepsOrder(fs, es[0].0, es[0].1);
      AssignAllKeepsOrder(fs', es[1..]);
      PrefixTrans(Keys(fs), Keys(fs'), Keys(AssignAll(fs', es[1..])));
    }
  }

  lemma AssignKeepsOrder(fs: Fields, k: string, v: Json)
    ensures |fs| <= |Assign(fs, k, v)| && Keys(Assign(fs, k, v))[..|fs|] == Keys(fs)
  {
    AssignKeys(fs, k, v);
    if k !in Keys(fs) {
      assert (Keys(fs) + [k])[..|fs|] == Keys(fs);
    }
  }

  lemma PrefixTrans(a: seq<string>, b: seq<string>, c: seq<string>)
    requires |a| <= |b| <= |c| && b[..|a|] == a && c[..|b|] == b
    ensures c[..|a|] == a
  {
    assert c[..|a|] == c[..|b|][..|a|];
  }

  /** After assignments, the keys are the old ones and the assigned ones. */
  lemma {:induction false} AssignAllKeySet(fs: Fields, es: Fields, k: string)
    ensures k in Keys(AssignAll(fs, es)) <==> k in Keys(fs) || k in Keys(es)
    decreases |es|
  {
    if es != [] {
      var fs' := Assign(fs, es[0].0, es[0].1);
      AssignKeys(fs, es[0].0, es[0].1);
      AssignAllKeySet(fs', es[1..], k);
    }
  }

  /** A run of assignments keeps the keys of a dict unique. */
  lemma {:induction false} AssignAllUnique(fs: Fields, es: Fields)
    requires UniqueKeys(fs)
    ensures UniqueKeys(AssignAll(fs, es))
    decreases |es|
  {
    if es != [] {
      AssignUnique(fs, es[0].0, es[0].1);
      AssignAllUnique(Assign(fs, es[0].0, es[0].1), es[1..]);
    }
  }

  lemma {:induction false} AssignAllConcat(fs: Fields, a: Fields, b: Fields)
    ensures AssignAll(fs, a + b) == AssignAll(AssignAll(fs, a), b)
    decreases |a|
  {
    if a == [] {
      assert a + b == b;
    } else {
      assert (a + b)[0] == a[0] && (a + b)[1..] == a[1..] + b;
      AssignAllConcat(Assign(fs, a[0].0, a[0].1), a[1..], b);
    }
  }

  /** The assignments of a prefix one longer: one more assignment. */
  lemma {:induction false} AssignAllSnoc(fs: Fields, es: Fields, i: nat)
    requires 0 < i <= |es|
    ensures AssignAll(fs, es[..i]) == AssignAll(AssignAll(fs, es[..i - 1]), [es[i - 1]])
  {
    assert es[..i] == es[..i - 1] + [es[i - 1]];
    AssignAllConcat(fs, es[..i - 1], [es[i - 1]]);
  }

  /** Assigning a key the dict does not hold appends it. */
  lemma {:induction false} AssignFresh(fs: Fields, k: string, v: Json)
    requires k !in Keys(fs)
    ensures Assign(fs, k, v) == fs + [(k, v)]
    decreases |fs|
  {
    if fs != [] {
      AssignFresh(fs[1..], k, v);
      assert [fs[0]] + (fs[1..] + [(k, v)]) == fs + [(k, v)];
    }
  }

  lemma {:induction false} KeysConcat(a: Fields, b: Fields)
    ensures Keys(a + b) == Keys(a) + Keys(b)
    decreases |a|
  {
    if a != [] {
      assert (a + b)[1..] == a[1..] + b;
      KeysConcat(a[1..], b);
    } else {
      assert a + b == b;
    }
  }

  /** Assigning fresh, distinct keys appends them in order. */
  lemma {:induction false} AssignAllFresh(fs: Fields, es: Fields)
    requires UniqueKeys(es) && forall k :: k in Keys(es) ==> k !in Keys(fs)
    ensures AssignAll(fs, es) == fs + es
    decreases |es|
  {
    if es != [] {
      FreshStep(fs, es);
      AssignAllFresh(fs + [es[0]], es[1..]);
      ConsSplit(fs, es);
    }
  }

  lemma ConsSplit(fs: Fields, es: Fields)
    requires es != []
    ensures fs + es == (fs + [es[0]]) + es[1..]
  {
    assert es == [es[0]] + es[1..];
  }

  /** One step of `AssignAllFresh`: the first assignment appends, and the
      remaining keys are still fresh. */
  lemma FreshStep(fs: Fields, es: Fields)
    requires es != [] && UniqueKeys(es) && forall k :: k in Keys(es) ==> k !in Keys(fs)
    ensures Assign(fs, es[0].0, es[0].1) == fs + [es[0]]
    ensures UniqueKeys(es[1..]) && forall k :: k in Keys(es[1..]) ==> k !in Keys(fs + [es[0]])
  {
    assert Keys(es) == [es[0].0] + Keys(es[1..]);
    AssignFresh(fs, es[0].0, es[0].1);
    KeysConcat(fs, [es[0]]);
    assert Keys([es[0]]) == [es[0].0];
  }

  /** The `j`-th key is the key of the `j`-th field. */
  lemma {:induction false} KeysIndex(fs: Fields)
    ensures forall j :: 0 <= j < |fs| ==> Keys(fs)[j] == fs[j].0
    decreases |fs|
  {
    if fs != [] {
      KeysIndex(fs[1..]);
      forall j | 0 < j < |fs|
        ensures Keys(fs)[j] == fs[j].0
      {
        assert Keys(fs)[j] == Keys(fs[1..])[j - 1];
      }
    }
  }

  /** A dict: no two fields share a key. */
  lemma {:induction false} UniqueKeysIndex(fs: Fields)
    ensures UniqueKeys(fs) <==> forall i, j :: 0 <= i < j < |fs| ==> fs[i].0 != fs[j].0
    decreases |fs|
  {
    if fs != [] {
      var rest := fs[1..];
      UniqueKeysIndex(rest);
      KeysIndex(rest);
      if UniqueKeys(fs) {
        forall i, j | 0 <= i < j < |fs|
          ensures fs[i].0 != fs[j].0
        {
          if i == 0 {
            assert Keys(rest)[j - 1] == fs[j].0;
          } else {
            assert rest[i - 1] == fs[i] && rest[j - 1] == fs[j];
          }
        }
      }
      if forall i, j :: 0 <= i < j < |fs| ==> fs[i].0 != fs[j].0 {
        forall i, j | 0 <= i < j < |rest|
          ensures rest[i].0 != rest[j].0
        {
          assert rest[i] == fs[i + 1] && rest[j] == fs[j + 1];
        }
      }
    }
  }

  /** `d[k]` is the value of the first field with key `k`. */
  lemma {:induction false} LookupIndex(fs: Fields, j: nat)
    requires j < |fs| && forall i :: 0 <= i < j ==> fs[i].0 != fs[j].0
    ensures Lookup(fs, fs[j].0) == Some(fs[j].1)
    decreases j
  {
    if j > 0 {
      var rest := fs[1..];
      assert rest[j - 1] == fs[j];
      forall i | 0 <= i < j - 1
        ensures rest[i].0 != rest[j - 1].0
      {
        assert rest[i] == fs[i + 1];
      }
      LookupIndex(rest, j - 1);
    }
  }

  /** A key of `a` is looked up in `a`, any other in `b`. */
  lemma {:induction false} LookupConcat(a: Fields, b: Fields, k: string)
    ensures Lookup(a + b, k) == if k in Keys(a) then Lookup(a, k) else Lookup(b, k)
    decreases |a|
  {
    if a == [] {
      assert a + b == b;
    } else {
      assert (a + b)[0] == a[0] && (a + b)[1..] == a[1..] + b;
      LookupConcat(a[1..], b, k);
    }
  }

  /** A key appended last is found with its value. */
  lemma {:induction false} LookupLast(fs: Fields, k: string, v: Json)
    requires k !in Keys(fs)
    ensures Lookup(fs + [(k, v)], k) == Some(v)
  {
    LookupConcat(fs, [(k, v)], k);
  }

  /** Assigning the key that was appended last replaces its value in place. */
  lemma {:induction false} AssignLast(fs: Fields, k: string, v: Json, w: Json)
    requires k !in Keys(fs)
    ensures Assign(fs + [(k, v)], k, w) == fs + [(k, w)]
    decreases |fs|
  {
    if fs == [] {
      assert [(k, v)][1..] == [];
    } else {
      assert (fs + [(k, v)])[0] == fs[0] && (fs + [(k, v)])[1..] == fs[1..] + [(k, v)];
      AssignLast(fs[1..], k, v, w);
      assert [fs[0]] + (fs[1..] + [(k, w)]) == fs + [(k, w)];
    }
  }
}
