/**
 * The list rules every portfolio editor applies to its collection: the next id,
 * replacing the record(s) with a given id, and deleting by id. Each editor (and the
 * combined portfolio page) repeats them for its own record type; here they are
 * stated once, over any record type `T` with an id projection `idOf`.
 */
module Collection {
  import Seqs

  /** `Math.max(...xs.map(idOf))` on a non-empty list. */
  function MaxId<T>(xs: seq<T>, idOf: T -> int): (m: int)
    requires xs != []
    ensures forall i :: 0 <= i < |xs| ==> idOf(xs[i]) <= m
    ensures exists i :: 0 <= i < |xs| && idOf(xs[i]) == m
  {
    if |xs| == 1 then idOf(xs[0])
    else
      var rest := MaxId(xs[1..], idOf);
      assert forall i :: 1 <= i < |xs| ==> idOf(xs[i]) <= rest by {
        forall i | 1 <= i < |xs| ensures idOf(xs[i]) <= rest {
          assert xs[i] == xs[1..][i - 1];
        }
      }
      assert exists i :: 1 <= i < |xs| && idOf(xs[i]) == rest by {
        var k :| 0 <= k < |xs[1..]| && idOf(xs[1..][k]) == rest;
        assert xs[k + 1] == xs[1..][k];
      }
      if idOf(xs[0]) >= rest then idOf(xs[0]) else rest
  }

  /**
   * The id a new record receives: `1` for an empty list, otherwise one more than the
   * largest id, so it differs from every id already in the list.
   */
  function NextId<T>(xs: seq<T>, idOf: T -> int): (r: int)
    ensures xs == [] ==> r == 1
    ensures forall i :: 0 <= i < |xs| ==> idOf(xs[i]) < r
    ensures xs != [] ==> exists i :: 0 <= i < |xs| && idOf(xs[i]) == r - 1
  {
    if xs == [] then 1 else MaxId(xs, idOf) + 1
  }

  /** `xs.map(x => idOf(x) === id ? update(x) : x)`. */
  function UpdateById<T>(xs: seq<T>, id: int, idOf: T -> int, update: T -> T): (r: seq<T>)
    ensures |r| == |xs|
    ensures forall i :: 0 <= i < |xs| && idOf(xs[i]) != id ==> r[i] == xs[i]
    ensures forall i :: 0 <= i < |xs| && idOf(xs[i]) == id ==> r[i] == update(xs[i])
  {
    if xs == [] then []
    else [if idOf(xs[0]) == id then update(xs[0]) else xs[0]] + UpdateById(xs[1..], id, idOf, update)
  }

  /** When `update` keeps ids, so does replacing by id: the list keeps its ids, in order. */
  lemma UpdateKeepsIds<T>(xs: seq<T>, id: int, idOf: T -> int, update: T -> T)
    requires forall x :: idOf(update(x)) == idOf(x)
    ensures forall i :: 0 <= i < |xs| ==> idOf(UpdateById(xs, id, idOf, update)[i]) == idOf(xs[i])
  {
  }

  predicate HasOtherId<T>(idOf: T -> int, id: int, x: T) {
    idOf(x) != id
  }

  /** `xs.filter(x => idOf(x) !== id)`. */
  function DeleteById<T>(xs: seq<T>, id: int, idOf: T -> int): (r: seq<T>)
    ensures forall i :: 0 <= i < |r| ==> idOf(r[i]) != id && r[i] in xs
    ensures forall i :: 0 <= i < |xs| && idOf(xs[i]) != id ==> xs[i] in r
    ensures (forall i :: 0 <= i < |xs| ==> idOf(xs[i]) != id) ==> r == xs
  {
    Seqs.Filter(xs, x => HasOtherId(idOf, id, x))
  }

  /** Number of records carrying `id`. */
  function CountId<T>(xs: seq<T>, id: int, idOf: T -> int): (n: nat)
    ensures n <= |xs|
  {
    if xs == [] then 0
    else (if idOf(xs[0]) == id then 1 else 0) + CountId(xs[1..], id, idOf)
  }

  /** Deleting keeps the survivors in order and shortens the list by the number of records removed. */
  lemma {:induction false} DeleteByIdShape<T>(xs: seq<T>, id: int, idOf: T -> int)
    ensures Seqs.IsSubseq(DeleteById(xs, id, idOf), xs)
    ensures |DeleteById(xs, id, idOf)| + CountId(xs, id, idOf) == |xs|
  {
    Seqs.FilterIsSubseq(xs, x => HasOtherId(idOf, id, x));
    if xs != [] {
      DeleteByIdShape(xs[1..], id, idOf);
    }
  }
}
