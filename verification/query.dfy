/**
  The single-row lookup of the object-relational mapper (`Model.objects.get(...)`),
  over the two shapes of table used by the model: a map keyed by primary key and a
  sequence of rows. The lookup raises `DoesNotExist` when no row matches and
  `MultipleObjectsReturned` when more than one does; both outcomes are kept here.
*/
module Query {

  /** Outcome of a single-row lookup. */
  datatype Lookup<K> = NotFound | Found(key: K) | Multiple

  /** Positions of the rows of `s` that satisfy `p`, in increasing order. */
  function IndicesWhere<T>(s: seq<T>, p: T -> bool): (r: seq<nat>)
    ensures forall j :: 0 <= j < |r| ==> r[j] < |s| && p(s[r[j]])
    ensures forall i :: 0 <= i < |s| && p(s[i]) ==> i in r
    ensures forall j, k :: 0 <= j < k < |r| ==> r[j] < r[k]
    decreases |s|
  {
    if |s| == 0 then []
    else
      var front := s[..|s| - 1];
      var rest := IndicesWhere(front, p);
      assert forall j :: 0 <= j < |rest| ==> s[rest[j]] == front[rest[j]];
      if p(s[|s| - 1]) then rest + [|s| - 1] else rest
  }

  /** `get` over a sequence of rows: the unique matching position, if there is one. */
  function GetIndex<T>(s: seq<T>, p: T -> bool): (r: Lookup<nat>)
    ensures r.NotFound? <==> forall i :: 0 <= i < |s| ==> !p(s[i])
    ensures r.Found? ==> r.key < |s| && p(s[r.key])
    ensures r.Found? ==> forall i :: 0 <= i < |s| && p(s[i]) ==> i == r.key
    ensures r.Multiple? <==> exists i, j :: 0 <= i < j < |s| && p(s[i]) && p(s[j])
  {
    var hits := IndicesWhere(s, p);
    if |hits| == 0 then
      NotFound
    else if |hits| == 1 then
      Found(hits[0])
    else
      assert hits[0] < hits[1];
      Multiple
  }

  lemma SingletonMembers<K>(s: set<K>)
    requires |s| == 1
    ensures forall a, b :: a in s && b in s ==> a == b
  {
    var x :| x in s;
    assert |s - {x}| == 0;
    assert forall a :: a in s ==> a in s - {x} || a == x;
  }

  lemma TwoMembers<K>(s: set<K>)
    requires |s| >= 2
    ensures exists a, b :: a in s && b in s && a != b
  {
    var a :| a in s;
    assert |s - {a}| == |s| - 1;
    var b :| b in s - {a};
  }

  /** `get` over a table keyed by primary key: the unique matching key, if there is one. */
  function GetKey<K(==), V>(m: map<K, V>, p: V -> bool): (r: Lookup<K>)
    ensures r.NotFound? <==> forall k :: k in m ==> !p(m[k])
    ensures r.Found? ==> r.key in m && p(m[r.key])
    ensures r.Found? ==> forall k :: k in m && p(m[k]) ==> k == r.key
    ensures r.Multiple? <==> exists a, b :: a in m && b in m && a != b && p(m[a]) && p(m[b])
  {
    var hits := set k | k in m && p(m[k]);
    assert forall k :: k in m && p(m[k]) ==> k in hits;
    if |hits| == 0 then
      NotFound
    else if |hits| == 1 then
      SingletonMembers(hits);
      var k :| k in hits;
      Found(k)
    else
      TwoMembers(hits);
      Multiple
  }
}
