/** JSON-like values and the few sequence helpers that every module shares. */
module Values {

  datatype Option<+T> = None | Some(value: T)

  /** What the Python code types as `Any`: the values that scratchpads, payloads and deltas hold. */
  datatype Value =
    | Null
    | Bool(b: bool)
    | Int(i: int)
    | Real(r: real)
    | Str(s: string)
    | List(items: seq<Value>)
    | Dict(entries: map<string, Value>)

  ghost function Flatten<T>(parts: seq<seq<T>>): seq<T> {
    if parts == [] then [] else Flatten(parts[..|parts| - 1]) + parts[|parts| - 1]
  }

  lemma {:induction false} FlattenAppend<T>(front: seq<seq<T>>, back: seq<seq<T>>)
    ensures Flatten(front + back) == Flatten(front) + Flatten(back)
  {
    if back == [] {
      assert front + back == front;
    } else {
      var n := |back| - 1;
      assert (front + back)[..|front + back| - 1] == front + back[..n];
      FlattenAppend(front, back[..n]);
    }
  }

  ghost predicate NoDuplicates<T>(s: seq<T>) {
    forall i, j :: 0 <= i < j < |s| ==> s[i] != s[j]
  }

  lemma AppendDistinct<T>(s: seq<T>, x: T)
    requires NoDuplicates(s) && x !in s
    ensures NoDuplicates(s + [x])
  {}

  lemma FlattenOne<T>(part: seq<T>)
    ensures Flatten([part]) == part
  {
    assert [part][..0] == [];
  }

  ghost predicate AnyOf<T>(s: seq<T>, test: T -> bool) {
    exists i :: 0 <= i < |s| && test(s[i])
  }

  lemma AnyOfSplit<T>(s: seq<T>, test: T -> bool)
    requires s != []
    ensures AnyOf(s, test) <==> AnyOf(s[..|s| - 1], test) || test(s[|s| - 1])
  {
    var n := |s| - 1;
    if AnyOf(s[..n], test) {
      var i :| 0 <= i < n && test(s[..n][i]);
      assert test(s[i]);
    }
    if AnyOf(s, test) && !test(s[n]) {
      var i :| 0 <= i < |s| && test(s[i]);
      assert test(s[..n][i]);
    }
  }
}
