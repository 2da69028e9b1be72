/** The two MongoDB collections the handlers use, `users` and `products`,
    as sequences of documents in storage order. */
module Documents {
  import opened Js
  import opened Seqs

  /** An ObjectId. The collections hand them out from a counter, which gives
      the one property the handlers depend on: a new id is unused. */
  type ObjectId = nat

  datatype UserDoc = UserDoc(id: ObjectId, email: Json, password: string, name: Json)

  datatype ProductDoc = ProductDoc(id: ObjectId, userId: string, name: Json, description: Json, price: Json)

  /** A request a handler sends to the database. */
  datatype DbOp =
    | FindUser(email: Json)
    | InsertUser(user: UserDoc)
    | FindProducts(userId: string)
    | InsertProduct(product: ProductDoc)

  function HexDigit(d: nat): (c: char)
    requires d < 16
    ensures c in "0123456789abcdef"
  {
    if d < 10 then ('0' as int + d) as char else ('a' as int + d - 10) as char
  }

  /** `ObjectId.toString()`: the id in lower-case hexadecimal, never empty,
      and at least two digits from 16 on. */
  function IdString(id: ObjectId): (s: string)
    decreases id
    ensures |s| >= 1 && (id >= 16 ==> |s| >= 2)
    ensures forall k :: 0 <= k < |s| ==> s[k] in "0123456789abcdef"
  {
    if id < 16 then [HexDigit(id)] else IdString(id / 16) + [HexDigit(id % 16)]
  }

  /** Distinct ids have distinct strings, so the id a handler sends back
      (and signs a token for) names exactly one stored document. */
  lemma {:induction false} IdStringInjective(a: ObjectId, b: ObjectId)
    ensures IdString(a) == IdString(b) ==> a == b
    decreases a
  {
    if IdString(a) == IdString(b) && a >= 16 && b >= 16 {
      var s := IdString(a);
      assert s[..|s| - 1] == IdString(a / 16) && s[|s| - 1] == HexDigit(a % 16);
      assert s[..|s| - 1] == IdString(b / 16) && s[|s| - 1] == HexDigit(b % 16);
      IdStringInjective(a / 16, b / 16);
    }
  }

  /** `findOne({ email })` on the users: the first user, in storage order,
      whose email equals the given value. */
  function FindByEmail(users: seq<UserDoc>, email: Json): (r: Option<UserDoc>)
    ensures r.None? <==> forall i :: 0 <= i < |users| ==> users[i].email != email
    ensures r.Some? ==>
      exists i :: 0 <= i < |users| && users[i] == r.value && r.value.email == email &&
        forall j :: 0 <= j < i ==> users[j].email != email
  {
    if users == [] then None
    else if users[0].email == email then Some(users[0])
    else
      var r := FindByEmail(users[1..], email);
      assert forall j :: 0 < j < |users| ==> users[j] == users[1..][j - 1];
      r
  }

  /** Appending a user keeps the answers for every other email, and makes the
      appended user the answer for its own email when it is the first. */
  lemma {:induction false} FindByEmailAfterAppend(users: seq<UserDoc>, u: UserDoc, email: Json)
    ensures FindByEmail(users, email).Some? ==> FindByEmail(users + [u], email) == FindByEmail(users, email)
    ensures FindByEmail(users, email).None? ==>
      FindByEmail(users + [u], email) == (if u.email == email then Some(u) else None)
  {
    if users != [] {
      assert (users + [u])[1..] == users[1..] + [u];
      FindByEmailAfterAppend(users[1..], u, email);
    }
  }

  /** No two stored users share an email. */
  predicate EmailsUnique(users: seq<UserDoc>) {
    forall i, j :: 0 <= i < j < |users| ==> users[i].email != users[j].email
  }

  /** `find({ userId })` on the products: the products of that owner, in
      storage order, and no others. */
  function OwnedBy(products: seq<ProductDoc>, userId: string): (r: seq<ProductDoc>)
    ensures forall p :: p in r <==> p in products && p.userId == userId
    ensures IsSubsequence(r, products)
    ensures forall p :: multiset(r)[p] == if p.userId == userId then multiset(products)[p] else 0
  {
    if products == [] then []
    else
      var rest := OwnedBy(products[1..], userId);
      assert products == [products[0]] + products[1..];
      assert multiset(products) == multiset([products[0]]) + multiset(products[1..]);
      if products[0].userId == userId then
        assert ([products[0]] + rest)[1..] == rest;
        [products[0]] + rest
      else
        SubsequenceOfCons(rest, products[0], products[1..]);
        rest
  }

  /** Storing a product adds it at the end of its owner's list and leaves
      every other owner's list as it was. */
  lemma {:induction false} OwnedByAfterAppend(products: seq<ProductDoc>, doc: ProductDoc, userId: string)
    ensures OwnedBy(products + [doc], userId) ==
      if doc.userId == userId then OwnedBy(products, userId) + [doc] else OwnedBy(products, userId)
  {
    if products == [] {
      assert products + [doc] == [doc];
      assert [doc][1..] == [];
    } else {
      assert (products + [doc])[1..] == products[1..] + [doc];
      OwnedByAfterAppend(products[1..], doc, userId);
    }
  }

  class UsersCollection {
    var docs: seq<UserDoc>
    var nextId: ObjectId
    /** Every request sent to this collection, oldest first. */
    ghost var ops: seq<DbOp>

    /** Every stored id is below the counter, and no two documents share one. */
    ghost predicate Valid()
      reads this
    {
      && (forall i :: 0 <= i < |docs| ==> docs[i].id < nextId)
      && (forall i, j :: 0 <= i < j < |docs| ==> docs[i].id != docs[j].id)
    }

    constructor ()
      ensures Valid() && docs == [] && ops == []
    {
      docs, nextId, ops := [], 0, [];
    }

    method FindOne(email: Json) returns (found: Option<UserDoc>)
      modifies this`ops
      ensures found == FindByEmail(docs, email)
      ensures ops == old(ops) + [FindUser(email)]
    {
      found := FindByEmail(docs, email);
      ops := ops + [FindUser(email)];
    }

    method InsertOne(email: Json, password: string, name: Json) returns (id: ObjectId)
      requires Valid()
      modifies this
      ensures Valid()
      ensures id == old(nextId)
      ensures forall i :: 0 <= i < |old(docs)| ==> old(docs)[i].id != id
      ensures docs == old(docs) + [UserDoc(id, email, password, name)]
      ensures ops == old(ops) + [InsertUser(UserDoc(id, email, password, name))]
    {
      id := nextId;
      docs := docs + [UserDoc(id, email, password, name)];
      nextId := nextId + 1;
      ops := ops + [InsertUser(UserDoc(id, email, password, name))];
    }
  }

  class ProductsCollection {
    var docs: seq<ProductDoc>
    var nextId: ObjectId
    /** Every request sent to this collection, oldest first. */
    ghost var ops: seq<DbOp>

    /** Every stored id is below the counter, and no two documents share one. */
    ghost predicate Valid()
      reads this
    {
      && (forall i :: 0 <= i < |docs| ==> docs[i].id < nextId)
      && (forall i, j :: 0 <= i < j < |docs| ==> docs[i].id != docs[j].id)
    }

    constructor ()
      ensures Valid() && docs == [] && ops == []
    {
      docs, nextId, ops := [], 0, [];
    }

    method InsertOne(userId: string, name: Json, description: Json, price: Json) returns (doc: ProductDoc)
      requires Valid()
      modifies this
      ensures Valid()
      ensures doc == ProductDoc(old(nextId), userId, name, description, price)
      ensures forall i :: 0 <= i < |old(docs)| ==> old(docs)[i].id != doc.id
      ensures docs == old(docs) + [doc]
      ensures ops == old(ops) + [InsertProduct(doc)]
    {
      doc := ProductDoc(nextId, userId, name, description, price);
      docs := docs + [doc];
      nextId := nextId + 1;
      ops := ops + [InsertProduct(doc)];
    }
  }
}
