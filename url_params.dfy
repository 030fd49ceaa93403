/** The query string of the shareable URL, as `URLSearchParams` sees it: an
    ordered list of name-value pairs. Percent-encoding is below this level of
    detail: a pair list is what `toString` writes and what the parser reads back. */
module UrlParams {
  import opened Wrappers

  type Query = seq<(string, string)>

  /** Some pair of `q` is named `key`. */
  predicate HasKey(q: Query, key: string)
  {
    q != [] && (q[0].0 == key || HasKey(q[1..], key))
  }

  /** `params.get(key)`: the value of the first pair named `key`, null (None) when
      there is none. */
  function Get(q: Query, key: string): Option<string>
  {
    if q == [] then None
    else if q[0].0 == key then Some(q[0].1)
    else Get(q[1..], key)
  }

  /** The pairs of `q` not named `key`, in order. */
  function Without(q: Query, key: string): Query
  {
    if q == [] then []
    else if q[0].0 == key then Without(q[1..], key)
    else [q[0]] + Without(q[1..], key)
  }

  /** `params.set(key, value)`: the first pair named `key` takes the value and the
      other pairs with that name are removed; without such a pair, a new one is
      appended at the end. */
  function Set(q: Query, key: string, value: string): Query
  {
    if HasKey(q, key) then Overwrite(q, key, value) else q + [(key, value)]
  }

  /** `set` of a name that is present. */
  function Overwrite(q: Query, key: string, value: string): Query
  {
    if q == [] then []
    else if q[0].0 == key then [(key, value)] + Without(q[1..], key)
    else [q[0]] + Overwrite(q[1..], key, value)
  }

  /** The one pair of a name with a value; none for a name without one. */
  function Entry(name: string, value: Option<string>): Query
  {
    if value.Some? then [(name, value.value)] else []
  }

  /** One pair per name that has a value, in the order of the names: what a
      run of guarded `set` calls over distinct names builds. */
  function Pairs(names: seq<string>, value: string -> Option<string>): Query
  {
    if names == [] then []
    else
      var last := names[|names| - 1];
      Pairs(names[..|names| - 1], value) + Entry(last, value(last))
  }

  /** `get` finds a value exactly when a pair has the name, and the value it
      finds is that of the first such pair. */
  lemma {:induction false} GetFindsFirst(q: Query, key: string)
    ensures Get(q, key).None? <==> !HasKey(q, key)
    ensures HasKey(q, key) <==> exists i :: 0 <= i < |q| && q[i].0 == key
    ensures Get(q, key).Some? ==>
              exists i :: 0 <= i < |q| && q[i] == (key, Get(q, key).value)
                          && forall j :: 0 <= j < i ==> q[j].0 != key
  {
    if q != [] {
      GetFindsFirst(q[1..], key);
      if q[0].0 != key {
        if HasKey(q[1..], key) {
          var i :| 0 <= i < |q[1..]| && q[1..][i] == (key, Get(q, key).value)
                   && forall j :: 0 <= j < i ==> q[1..][j].0 != key;
          assert q[i + 1] == (key, Get(q, key).value);
          forall j | 0 <= j < i + 1 ensures q[j].0 != key {
            if j > 0 { assert q[j] == q[1..][j - 1]; }
          }
        }
        assert (exists i :: 0 <= i < |q| && q[i].0 == key) ==> HasKey(q[1..], key) by {
          if exists i :: 0 <= i < |q| && q[i].0 == key {
            var i :| 0 <= i < |q| && q[i].0 == key;
            assert q[1..][i - 1].0 == key;
          }
        }
      } else {
        assert q[0] == (key, Get(q, key).value);
      }
    }
  }

  /** `get` on two lists of pairs written one after the other reads the first
      list when it has the name, else the second. */
  lemma {:induction false} GetAppend(a: Query, b: Query, key: string)
    ensures HasKey(a + b, key) <==> HasKey(a, key) || HasKey(b, key)
    ensures Get(a + b, key) == if HasKey(a, key) then Get(a, key) else Get(b, key)
  {
    if a == [] {
      assert a + b == b;
    } else {
      assert (a + b)[1..] == a[1..] + b;
      GetAppend(a[1..], b, key);
    }
  }

  lemma {:induction false} WithoutSpec(q: Query, key: string, k: string)
    ensures !HasKey(Without(q, key), key)
    ensures k != key ==> Get(Without(q, key), k) == Get(q, k)
  {
    if q != [] {
      WithoutSpec(q[1..], key, k);
      if q[0].0 != key {
        var w := [q[0]] + Without(q[1..], key);
        assert w[1..] == Without(q[1..], key);
      }
    }
  }

  lemma {:induction false} OverwriteSpec(q: Query, key: string, value: string, k: string)
    requires HasKey(q, key)
    ensures Get(Overwrite(q, key, value), key) == Some(value)
    ensures k != key ==> Get(Overwrite(q, key, value), k) == Get(q, k)
  {
    if q[0].0 == key {
      WithoutSpec(q[1..], key, k);
      var w := [(key, value)] + Without(q[1..], key);
      assert w[1..] == Without(q[1..], key);
    } else {
      OverwriteSpec(q[1..], key, value, k);
      var w := [q[0]] + Overwrite(q[1..], key, value);
      assert w[1..] == Overwrite(q[1..], key, value);
    }
  }

  /** After `set`, `get` of that name reads the new value and every other name
      reads what it read before. */
  lemma SetThenGet(q: Query, key: string, value: string, k: string)
    ensures Get(Set(q, key, value), key) == Some(value)
    ensures k != key ==> Get(Set(q, key, value), k) == Get(q, k)
  {
    if HasKey(q, key) {
      OverwriteSpec(q, key, value, k);
    } else {
      GetAppend(q, [(key, value)], key);
      GetAppend(q, [(key, value)], k);
      assert [(key, value)][1..] == [];
      GetFindsFirst(q, k);
    }
  }

  lemma GetEntry(n: string, v: Option<string>, k: string)
    ensures HasKey(Entry(n, v), k) <==> n == k && v.Some?
    ensures Get(Entry(n, v), k) == if n == k then v else None
  {
  }

  /** Only the names listed are present, and each reads back as its value. */
  lemma {:induction false} GetPairs(names: seq<string>, value: string -> Option<string>, k: string)
    ensures HasKey(Pairs(names, value), k) ==> k in names
    ensures Get(Pairs(names, value), k) == if k in names then value(k) else None
  {
    if names != [] {
      var init, last := names[..|names| - 1], names[|names| - 1];
      assert names == init + [last];
      GetPairs(init, value, k);
      GetFindsFirst(Pairs(init, value), k);
      GetAppend(Pairs(init, value), Entry(last, value(last)), k);
      GetEntry(last, value(last), k);
    }
  }

  /** A guarded `set` of a name not listed yet extends the pairs by that name. */
  lemma SetPairs(names: seq<string>, value: string -> Option<string>, name: string, present: bool, v: string)
    requires name !in names
    requires value(name) == if present then Some(v) else None
    ensures (if present then Set(Pairs(names, value), name, v) else Pairs(names, value))
            == Pairs(names + [name], value)
  {
    GetPairs(names, value, name);
    assert (names + [name])[..|names|] == names;
  }

  /** The pairs depend only on the values of the names listed. */
  lemma {:induction false} PairsOfSameValues(names: seq<string>, f: string -> Option<string>, g: string -> Option<string>)
    requires forall k :: k in names ==> f(k) == g(k)
    ensures Pairs(names, f) == Pairs(names, g)
  {
    if names != [] {
      PairsOfSameValues(names[..|names| - 1], f, g);
    }
  }
}
