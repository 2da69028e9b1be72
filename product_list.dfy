/** The list expressions the product store applies on a successful reply:
    `map` to replace by id and `filter` to remove by id. */
module ProductList {
  import opened Js
  import opened Seqs

  /** A product as the client holds it; `_id` may be missing. The price is
      a JavaScript number that the store only carries along. */
  datatype Product = Product(id: Option<string>, name: string, description: string, price: real)

  /** `(p._id as any)?.toString() === id` */
  function HasId(p: Product, id: string): (b: bool)
    ensures p.id.None? ==> !b
    ensures b <==> p.id.Some? && p.id.value == id
  {
    p.id == Some(id)
  }

  /** How many products carry the id. */
  function CountWithId(ps: seq<Product>, id: string): (n: nat)
    ensures n <= |ps|
    ensures n == 0 <==> forall i :: 0 <= i < |ps| ==> !HasId(ps[i], id)
  {
    if ps == [] then 0
    else
      assert forall i :: 1 <= i < |ps| ==> ps[i] == ps[1..][i - 1];
      (if HasId(ps[0], id) then 1 else 0) + CountWithId(ps[1..], id)
  }

  /** `products.map(p => p._id === id ? updated : p)`: every product with the
      id becomes `updated`, every other keeps its place, and the length stays. */
  function Replaced(ps: seq<Product>, id: string, updated: Product): (r: seq<Product>)
    ensures |r| == |ps|
    ensures forall i :: 0 <= i < |ps| ==> r[i] == if HasId(ps[i], id) then updated else ps[i]
  {
    if ps == [] then []
    else [if HasId(ps[0], id) then updated else ps[0]] + Replaced(ps[1..], id, updated)
  }

  /** `products.filter(p => p._id !== id)`: no product with the id is left,
      every other one is kept, in order, and the length drops by the number
      of products that had the id. */
  function Removed(ps: seq<Product>, id: string): (r: seq<Product>)
    ensures forall p :: p in r <==> p in ps && !HasId(p, id)
    ensures IsSubsequence(r, ps)
    ensures |r| == |ps| - CountWithId(ps, id)
  {
    if ps == [] then []
    else
      var rest := Removed(ps[1..], id);
      assert ps == [ps[0]] + ps[1..];
      if HasId(ps[0], id) then
        SubsequenceOfCons(rest, ps[0], ps[1..]);
        rest
      else
        assert ([ps[0]] + rest)[1..] == rest;
        [ps[0]] + rest
  }

  /** Removal keeps every product without the id as often as it occurred. */
  lemma {:induction false} RemovedKeepsMultiplicity(ps: seq<Product>, id: string, p: Product)
    requires !HasId(p, id)
    ensures multiset(Removed(ps, id))[p] == multiset(ps)[p]
  {
    if ps != [] {
      assert ps == [ps[0]] + ps[1..];
      RemovedKeepsMultiplicity(ps[1..], id, p);
      if !HasId(ps[0], id) {
        assert Removed(ps, id) == [ps[0]] + Removed(ps[1..], id);
      }
    }
  }

  /** Filtering distributes over concatenation. */
  lemma {:induction false} RemovedOfConcat(a: seq<Product>, b: seq<Product>, id: string)
    ensures Removed(a + b, id) == Removed(a, id) + Removed(b, id)
  {
    if a == [] {
      assert a + b == b;
    } else {
      assert (a + b)[0] == a[0];
      assert (a + b)[1..] == a[1..] + b;
      RemovedOfConcat(a[1..], b, id);
    }
  }

  /** Nothing carries the id: removal changes nothing. */
  lemma {:induction false} RemovedWithoutMatch(ps: seq<Product>, id: string)
    requires forall i :: 0 <= i < |ps| ==> !HasId(ps[i], id)
    ensures Removed(ps, id) == ps
  {
    if ps != [] {
      assert ps == [ps[0]] + ps[1..];
      RemovedWithoutMatch(ps[1..], id);
    }
  }

  /** Creating a product with a new id and then deleting that id gives the
      list back. */
  lemma CreateThenDelete(ps: seq<Product>, created: Product, id: string)
    requires HasId(created, id)
    requires forall i :: 0 <= i < |ps| ==> !HasId(ps[i], id)
    ensures Removed(ps + [created], id) == ps
  {
    RemovedOfConcat(ps, [created], id);
    RemovedWithoutMatch(ps, id);
    assert Removed([created], id) == [];
  }

  /** Deleting after an update that kept the id is the same as deleting. */
  lemma {:induction false} UpdateThenDelete(ps: seq<Product>, id: string, updated: Product)
    requires HasId(updated, id)
    ensures Removed(Replaced(ps, id, updated), id) == Removed(ps, id)
  {
    if ps != [] {
      assert Replaced(ps, id, updated)[1..] == Replaced(ps[1..], id, updated);
      UpdateThenDelete(ps[1..], id, updated);
    }
  }

  /** Applying the same update twice is applying it once, whether or not the
      server's product keeps the id. */
  lemma ReplacedIdempotent(ps: seq<Product>, id: string, updated: Product)
    ensures Replaced(Replaced(ps, id, updated), id, updated) == Replaced(ps, id, updated)
  {
  }

  /** Deleting twice is deleting once. */
  lemma RemovedIdempotent(ps: seq<Product>, id: string)
    ensures Removed(Removed(ps, id), id) == Removed(ps, id)
  {
    RemovedWithoutMatch(Removed(ps, id), id);
  }
}
