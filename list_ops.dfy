/** The three list updates both caches apply after the server confirms a change,
    written once for any record type with an id: `map` that swaps in the record
    with a matching id, `filter` that drops the records with an id, and `find`
    of the first record with an id. */
module ListOps {
  import opened Wrappers

  /** `xs.map(x => id(x) === id(y) ? y : x)`. */
  function ReplaceById<T>(xs: seq<T>, id: T -> int, y: T): (r: seq<T>)
    ensures |r| == |xs|
    ensures forall i :: 0 <= i < |xs| ==> r[i] == if id(xs[i]) == id(y) then y else xs[i]
  {
    if xs == [] then []
    else [if id(xs[0]) == id(y) then y else xs[0]] + ReplaceById(xs[1..], id, y)
  }

  /** `xs.filter(x => id(x) !== k)`. */
  function RemoveById<T(==)>(xs: seq<T>, id: T -> int, k: int): (r: seq<T>)
    ensures |r| <= |xs|
    ensures forall i :: 0 <= i < |r| ==> r[i] in xs && id(r[i]) != k
    ensures forall i :: 0 <= i < |xs| && id(xs[i]) != k ==> xs[i] in r
    ensures (exists i :: 0 <= i < |xs| && id(xs[i]) == k) ==> |r| < |xs|
  {
    if xs == [] then []
    else (if id(xs[0]) == k then [] else [xs[0]]) + RemoveById(xs[1..], id, k)
  }

  /** `xs.find(x => id(x) === k)`: the first record with that id, if any. */
  function FindById<T>(xs: seq<T>, id: T -> int, k: int): (r: Option<T>)
    ensures r.None? <==> forall i :: 0 <= i < |xs| ==> id(xs[i]) != k
    ensures r.Some? ==> id(r.value) == k
    ensures r.Some? ==> exists i :: 0 <= i < |xs| && xs[i] == r.value
                                    && forall j :: 0 <= j < i ==> id(xs[j]) != k
  {
    if xs == [] then None
    else if id(xs[0]) == k then Some(xs[0])
    else
      var r := FindById(xs[1..], id, k);
      assert r.Some? ==> exists i :: 0 <= i < |xs| && xs[i] == r.value
                                     && forall j :: 0 <= j < i ==> id(xs[j]) != k by {
        if r.Some? {
          var i :| 0 <= i < |xs[1..]| && xs[1..][i] == r.value
                   && forall j :: 0 <= j < i ==> id(xs[1..][j]) != k;
          assert xs[i + 1] == r.value;
          forall j | 0 <= j < i + 1 ensures id(xs[j]) != k {
            if j > 0 { assert xs[j] == xs[1..][j - 1]; }
          }
        }
      }
      r
  }

  /** Filtering distributes over concatenation: the records that stay keep
      their relative order. */
  lemma {:induction false} RemoveByIdAppend<T>(a: seq<T>, b: seq<T>, id: T -> int, k: int)
    ensures RemoveById(a + b, id, k) == RemoveById(a, id, k) + RemoveById(b, id, k)
  {
    if a != [] {
      assert (a + b)[1..] == a[1..] + b;
      RemoveByIdAppend(a[1..], b, id, k);
    } else {
      assert a + b == b;
    }
  }

  /** With no record of that id, filtering changes nothing. */
  lemma {:induction false} RemoveByIdAbsent<T>(xs: seq<T>, id: T -> int, k: int)
    requires forall i :: 0 <= i < |xs| ==> id(xs[i]) != k
    ensures RemoveById(xs, id, k) == xs
  {
    if xs != [] {
      RemoveByIdAbsent(xs[1..], id, k);
    }
  }

  /** With no record of that id, replacing changes nothing. */
  lemma ReplaceByIdAbsent<T>(xs: seq<T>, id: T -> int, y: T)
    requires forall i :: 0 <= i < |xs| ==> id(xs[i]) != id(y)
    ensures ReplaceById(xs, id, y) == xs
  {
  }

  /** Replacing twice with the same record is replacing once. */
  lemma ReplaceByIdIdempotent<T>(xs: seq<T>, id: T -> int, y: T)
    ensures ReplaceById(ReplaceById(xs, id, y), id, y) == ReplaceById(xs, id, y)
  {
  }
}
