/** The small helpers at the top of the attention module: `exists`,
    `default` and `uniq`. Python's `None` is `Option.None`. */
module Helpers {

  datatype Option<+A> = None | Some(value: A)

  /** `exists(val)`: the argument is not `None`. */
  predicate Exists<A>(val: Option<A>): (b: bool)
    ensures b <==> !val.None?
  {
    val.Some?
  }

  /** The second argument of `default`: a tensor or number, returned as is,
      or a callable, invoked only when it is needed. */
  datatype Fallback<A> = Constant(value: A) | Thunk(make: () -> A)

  /** `default(val, d)`. */
  function Default<A>(val: Option<A>, d: Fallback<A>): (r: A)
    ensures Exists(val) ==> r == val.value
    ensures !Exists(val) && d.Constant? ==> r == d.value
    ensures !Exists(val) && d.Thunk? ==> r == d.make()
  {
    if Exists(val) then val.value
    else match d
      case Constant(c) => c
      case Thunk(f) => f()
  }

  /** Inserting a key into the key list of a Python dict: a key already
      present keeps its place, a new key goes last. */
  function InsertKey<A(==)>(keys: seq<A>, el: A): seq<A>
  {
    if el in keys then keys else keys + [el]
  }

  /** The keys of `{el: True for el in arr}` when the dict starts with `keys`. */
  function UniqFrom<A(==)>(keys: seq<A>, arr: seq<A>): seq<A>
    decreases |arr|
  {
    if arr == [] then keys else UniqFrom(InsertKey(keys, arr[0]), arr[1..])
  }

  /** Position of the first occurrence of `x` in `arr`. */
  function FirstIndex<A(==)>(arr: seq<A>, x: A): (i: nat)
    requires x in arr
    ensures i < |arr| && arr[i] == x && x !in arr[..i]
  {
    if arr[0] == x then 0 else 1 + FirstIndex(arr[1..], x)
  }

  predicate NoDuplicates<A(==)>(s: seq<A>)
  {
    forall i, j | 0 <= i < j < |s| :: s[i] != s[j]
  }

  lemma {:induction false} UniqFromSnoc<A>(keys: seq<A>, a: seq<A>, x: A)
    ensures UniqFrom(keys, a + [x]) == InsertKey(UniqFrom(keys, a), x)
    decreases |a|
  {
    if a == [] {
      assert [x][1..] == [];
    } else {
      assert (a + [x])[0] == a[0];
      assert (a + [x])[1..] == a[1..] + [x];
      UniqFromSnoc(InsertKey(keys, a[0]), a[1..], x);
    }
  }

  lemma {:induction false} FirstIndexSnoc<A>(a: seq<A>, x: A, y: A)
    requires y in a
    ensures FirstIndex(a + [x], y) == FirstIndex(a, y)
  {
    if a[0] != y {
      assert (a + [x])[1..] == a[1..] + [x];
      FirstIndexSnoc(a[1..], x, y);
    }
  }

  lemma FirstIndexOfNew<A>(a: seq<A>, x: A)
    requires x !in a
    ensures FirstIndex(a + [x], x) == |a|
  {
  }

  /** The dict's keys: every element once, in order of first occurrence. */
  lemma {:induction false} UniqProperties<A>(arr: seq<A>)
    ensures var r := UniqFrom([], arr);
      && (forall i | 0 <= i < |r| :: r[i] in arr)
      && (forall i | 0 <= i < |arr| :: arr[i] in r)
      && NoDuplicates(r)
      && (forall i, j | 0 <= i < j < |r| :: FirstIndex(arr, r[i]) < FirstIndex(arr, r[j]))
    decreases |arr|
  {
    if arr != [] {
      var a, x := arr[..|arr| - 1], arr[|arr| - 1];
      assert arr == a + [x];
      UniqProperties(a);
      UniqFromSnoc([], a, x);
      var ra := UniqFrom([], a);
      var r := UniqFrom([], arr);
      forall y | y in a ensures FirstIndex(arr, y) == FirstIndex(a, y) {
        FirstIndexSnoc(a, x, y);
      }
      if x !in a {
        assert r == ra + [x];
        FirstIndexOfNew(a, x);
        forall i, j | 0 <= i < j < |r| ensures FirstIndex(arr, r[i]) < FirstIndex(arr, r[j]) {
          assert r[i] in a;
          if j < |ra| {
            assert r[j] in a;
          }
        }
      }
    }
  }

  /** `uniq(arr)`: the keys of `{el: True for el in arr}`. */
  function Uniq<A(==)>(arr: seq<A>): (r: seq<A>)
    ensures forall i | 0 <= i < |r| :: r[i] in arr
    ensures forall i | 0 <= i < |arr| :: arr[i] in r
    ensures NoDuplicates(r)
    ensures forall i, j | 0 <= i < j < |r| :: FirstIndex(arr, r[i]) < FirstIndex(arr, r[j])
  {
    UniqProperties(arr);
    UniqFrom([], arr)
  }
}
