/** JavaScript values as the request handlers and the client see them. */
module Js {

  datatype Option<+T> = None | Some(value: T)

  /** A value produced by parsing a JSON request body, plus `Undefined`, the
      value of a property the body does not have. `Num` holds the number as
      parsed (a literal such as `1e400` parses to Infinity, which the model
      folds into some non-zero real); that is enough, because the handlers
      only test a number against 0 and do no arithmetic. */
  datatype Json =
    | Undefined
    | Null
    | Bool(b: bool)
    | Num(n: real)
    | Str(s: string)
    | Arr(elements: seq<Json>)
    | Obj(members: seq<(string, Json)>)

  /** JavaScript truthiness: `!v` is the negation of this. Exactly five
      values are falsy. */
  function Truthy(v: Json): (t: bool)
    ensures !t <==> v in {Undefined, Null, Bool(false), Num(0.0), Str("")}
  {
    match v
    case Undefined => false
    case Null => false
    case Bool(b) => b
    case Num(n) => n != 0.0
    case Str(s) => s != ""
    case Arr(_) => true
    case Obj(_) => true
  }

  /** `members[i]` binds `key` and no later member does. */
  predicate LastBinding(members: seq<(string, Json)>, key: string, i: int) {
    0 <= i < |members| && members[i].0 == key && forall j :: i < j < |members| ==> members[j].0 != key
  }

  /** The property `key` of a parsed object. When a key is written twice the
      last one wins, as with JSON.parse; a missing key reads as Undefined.
      That holds for keys no prototype defines, as are the five the handlers
      read (`name`, `description`, `price`, `email`, `password`). */
  function Member(members: seq<(string, Json)>, key: string): (v: Json)
    decreases |members|
    ensures (forall i :: 0 <= i < |members| ==> members[i].0 != key) ==> v == Undefined
    ensures v != Undefined ==> exists i :: LastBinding(members, key, i) && members[i].1 == v
    ensures forall i :: LastBinding(members, key, i) ==> v == members[i].1
  {
    if members == [] then Undefined
    else if members[|members| - 1].0 == key then
      assert LastBinding(members, key, |members| - 1);
      members[|members| - 1].1
    else
      var init := members[..|members| - 1];
      var v := Member(init, key);
      assert forall i :: LastBinding(members, key, i) ==> LastBinding(init, key, i);
      assert forall i :: LastBinding(init, key, i) ==> LastBinding(members, key, i);
      v
  }

  /** `const { key } = value`: None when destructuring throws (the value is
      null or undefined); every other non-object yields Undefined, again for
      keys no prototype defines (`"abc".length` is 3), which covers the five
      keys the handlers read. */
  function Field(value: Json, key: string): (r: Option<Json>)
    ensures r.None? <==> value.Null? || value.Undefined?
    ensures r.Some? && !value.Obj? ==> r.value == Undefined
    ensures value.Obj? ==> r == Some(Member(value.members, key))
  {
    match value
    case Undefined => None
    case Null => None
    case Obj(members) => Some(Member(members, key))
    case _ => Some(Undefined)
  }
}
