/** Slots sorted by a two-part key, ties broken by the slot number: a total order. */
module SlotOrder {

  datatype Key = Key(major: int, minor: int)

  predicate Before(keys: map<nat, Key>, x: nat, y: nat)
    requires x in keys && y in keys
  {
    || keys[x].major < keys[y].major
    || (keys[x].major == keys[y].major && keys[x].minor < keys[y].minor)
    || (keys[x] == keys[y] && x < y)
  }

  predicate IsFirst(xs: set<nat>, keys: map<nat, Key>, x: nat)
    requires xs <= keys.Keys
  {
    x in xs && forall y :: y in xs && y != x ==> Before(keys, x, y)
  }

  lemma {:induction false} FirstExists(xs: set<nat>, keys: map<nat, Key>)
    requires xs != {} && xs <= keys.Keys
    ensures exists x :: IsFirst(xs, keys, x)
  {
    var x :| x in xs;
    var rest := xs - {x};
    if rest == {} {
      assert xs == {x};
      assert IsFirst(xs, keys, x);
    } else {
      FirstExists(rest, keys);
      var y :| IsFirst(rest, keys, y);
      if Before(keys, x, y) {
        assert forall z :: z in xs && z != x ==> z in rest;
        assert IsFirst(xs, keys, x);
      } else {
        assert forall z :: z in xs && z != x ==> z in rest;
        assert IsFirst(xs, keys, y);
      }
    }
  }

  function First(xs: set<nat>, keys: map<nat, Key>): (x: nat)
    requires xs != {} && xs <= keys.Keys
    ensures IsFirst(xs, keys, x)
  {
    FirstExists(xs, keys);
    var x :| IsFirst(xs, keys, x);
    x
  }

  ghost predicate IsSorted(q: seq<nat>, keys: map<nat, Key>) {
    && (forall i :: 0 <= i < |q| ==> q[i] in keys)
    && forall i, j :: 0 <= i < j < |q| ==> Before(keys, q[i], q[j])
  }

  /** The first slot in front of the sorted others. */
  lemma FirstInFront(xs: set<nat>, keys: map<nat, Key>, x: nat, tail: seq<nat>)
    requires xs <= keys.Keys && IsFirst(xs, keys, x)
    requires IsSorted(tail, keys) && forall y :: y in tail <==> y in xs - {x}
    ensures IsSorted([x] + tail, keys) && forall y :: y in [x] + tail <==> y in xs
  {
    hide Before;
    var q := [x] + tail;
    forall i, j | 0 <= i < j < |q| ensures Before(keys, q[i], q[j]) {
      assert q[j] == tail[j - 1] && q[j] in tail;
      if i > 0 {
        assert q[i] == tail[i - 1];
      }
    }
  }

  function Sorted(xs: set<nat>, keys: map<nat, Key>): (q: seq<nat>)
    requires xs <= keys.Keys
    ensures forall x :: x in q <==> x in xs
    ensures |q| == |xs|
    ensures IsSorted(q, keys)
    decreases |xs|
  {
    if xs == {} then []
    else
      var x := First(xs, keys);
      var tail := Sorted(xs - {x}, keys);
      FirstInFront(xs, keys, x, tail);
      [x] + tail
  }
}
