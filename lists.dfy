/**
 * The array operations the store is built from (`find`, `filter` and `map`),
 * over lists whose elements carry a string identifier given by `idOf`.
 */
module Lists {
  import opened Wrappers

  /** Some element of `s` carries identifier `id`. */
  predicate HasId<T(==,!new)>(s: seq<T>, idOf: T -> string, id: string) {
    exists x :: x in s && idOf(x) == id
  }

  /** No two positions of `s` carry the same identifier. */
  predicate Distinct<T>(s: seq<T>, idOf: T -> string) {
    forall i, j :: 0 <= i < j < |s| ==> idOf(s[i]) != idOf(s[j])
  }

  /** `s.find(x => idOf(x) === id)`: the first element carrying `id`, if any. */
  function Find<T(==,!new)>(s: seq<T>, idOf: T -> string, id: string): (r: Option<T>)
    ensures r.None? <==> !HasId(s, idOf, id)
    ensures r.Some? ==> idOf(r.value) == id
    ensures r.Some? ==>
      exists i :: 0 <= i < |s| && s[i] == r.value && forall j :: 0 <= j < i ==> idOf(s[j]) != id
  {
    if s == [] then None
    else if idOf(s[0]) == id then Some(s[0])
    else
      var r := Find(s[1..], idOf, id);
      assert forall x :: x in s[1..] ==> x in s;
      assert forall x :: x in s ==> x == s[0] || x in s[1..];
      assert r.Some? ==> exists i :: 0 <= i < |s| && s[i] == r.value && forall j :: 0 <= j < i ==> idOf(s[j]) != id by {
        if r.Some? {
          var i :| 0 <= i < |s[1..]| && s[1..][i] == r.value && forall j :: 0 <= j < i ==> idOf(s[1..][j]) != id;
          assert s[i + 1] == r.value && forall j :: 0 <= j < i + 1 ==> idOf(s[j]) != id;
        }
      }
      r
  }

  /** `s.filter(x => idOf(x) !== id)`: every element carrying `id` removed. */
  function FilterOut<T(==,!new)>(s: seq<T>, idOf: T -> string, id: string): (r: seq<T>)
    ensures forall x :: x in r <==> x in s && idOf(x) != id
    ensures !HasId(r, idOf, id)
    ensures HasId(s, idOf, id) <==> |r| < |s|
    ensures !HasId(s, idOf, id) ==> r == s
  {
    if s == [] then []
    else
      var rest := FilterOut(s[1..], idOf, id);
      assert forall x :: x in s[1..] ==> x in s;
      assert forall x :: x in s ==> x == s[0] || x in s[1..];
      if idOf(s[0]) == id then rest else [s[0]] + rest
  }

  /** Filtering distributes over concatenation, so survivors keep their order. */
  lemma {:induction false} FilterOutAppend<T(!new)>(a: seq<T>, b: seq<T>, idOf: T -> string, id: string)
    ensures FilterOut(a + b, idOf, id) == FilterOut(a, idOf, id) + FilterOut(b, idOf, id)
  {
    if a != [] {
      assert (a + b)[1..] == a[1..] + b;
      FilterOutAppend(a[1..], b, idOf, id);
    } else {
      assert a + b == b;
    }
  }

  /** Filtering twice by the same identifier is filtering once. */
  lemma FilterOutIdempotent<T(!new)>(s: seq<T>, idOf: T -> string, id: string)
    ensures FilterOut(FilterOut(s, idOf, id), idOf, id) == FilterOut(s, idOf, id)
  {
  }

  /** Removing elements keeps identifiers pairwise distinct. */
  lemma {:induction false} FilterOutDistinct<T(!new)>(s: seq<T>, idOf: T -> string, id: string)
    requires Distinct(s, idOf)
    ensures Distinct(FilterOut(s, idOf, id), idOf)
  {
    if s != [] {
      DistinctTail(s, idOf);
      FilterOutDistinct(s[1..], idOf, id);
      if idOf(s[0]) != id {
        var rest := FilterOut(s[1..], idOf, id);
        HeadIdNotInTail(s, idOf);
        ConsDistinct(s[0], rest, idOf);
      }
    }
  }

  lemma DistinctTail<T>(s: seq<T>, idOf: T -> string)
    requires s != [] && Distinct(s, idOf)
    ensures Distinct(s[1..], idOf)
  {
    forall i, j | 0 <= i < j < |s[1..]| ensures idOf(s[1..][i]) != idOf(s[1..][j]) {
      assert s[1..][i] == s[i + 1] && s[1..][j] == s[j + 1];
    }
  }

  lemma HeadIdNotInTail<T(!new)>(s: seq<T>, idOf: T -> string)
    requires s != [] && Distinct(s, idOf)
    ensures !HasId(s[1..], idOf, idOf(s[0]))
  {
    forall x | x in s[1..] ensures idOf(x) != idOf(s[0]) {
      var k :| 0 <= k < |s[1..]| && s[1..][k] == x;
      assert s[k + 1] == x;
    }
  }

  lemma ConsDistinct<T(!new)>(x: T, s: seq<T>, idOf: T -> string)
    requires Distinct(s, idOf)
    requires !HasId(s, idOf, idOf(x))
    ensures Distinct([x] + s, idOf)
  {
    var r := [x] + s;
    forall i, j | 0 <= i < j < |r| ensures idOf(r[i]) != idOf(r[j]) {
      assert r[j] == s[j - 1] && r[j] in s;
      if i > 0 {
        assert r[i] == s[i - 1];
      }
    }
  }

  /** `s.map(x => idOf(x) === id ? v : x)`: every element carrying `id` replaced by `v`. */
  function ReplaceWhere<T>(s: seq<T>, idOf: T -> string, id: string, v: T): (r: seq<T>)
    ensures |r| == |s|
    ensures forall i :: 0 <= i < |s| ==> r[i] == (if idOf(s[i]) == id then v else s[i])
  {
    if s == [] then []
    else [if idOf(s[0]) == id then v else s[0]] + ReplaceWhere(s[1..], idOf, id, v)
  }

  /** Replacing by an identifier nothing carries leaves the list as it was. */
  lemma ReplaceWhereAbsent<T(!new)>(s: seq<T>, idOf: T -> string, id: string, v: T)
    requires !HasId(s, idOf, id)
    ensures ReplaceWhere(s, idOf, id, v) == s
  {
    var r := ReplaceWhere(s, idOf, id, v);
    forall i | 0 <= i < |s| ensures r[i] == s[i] {
      assert s[i] in s;
    }
  }

  /**
   * After every element carrying `id` is replaced by `v`, and `v` itself
   * carries `id`, looking `id` up finds `v`.
   */
  lemma {:induction false} FindAfterReplace<T(!new)>(s: seq<T>, idOf: T -> string, id: string, v: T)
    requires idOf(v) == id && HasId(s, idOf, id)
    ensures Find(ReplaceWhere(s, idOf, id, v), idOf, id) == Some(v)
  {
    var r := ReplaceWhere(s, idOf, id, v);
    var x :| x in s && idOf(x) == id;
    var i :| 0 <= i < |s| && s[i] == x;
    assert r[i] in r && idOf(r[i]) == id;
    var f := Find(r, idOf, id);
    var k :| 0 <= k < |r| && r[k] == f.value && forall j :: 0 <= j < k ==> idOf(r[j]) != id;
  }
}
