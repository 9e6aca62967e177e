/** Ascending iteration over the keys of a `BTreeMap`. */
module SortedKeys {
  import opened SyTypes

  predicate IsLeast(m: u64, s: set<u64>) {
    m in s && forall k <- s :: m <= k
  }

  lemma HasLeast(s: set<u64>)
    requires s != {}
    ensures exists m :: IsLeast(m, s)
  {
    var x :| x in s;
    var rest := s - {x};
    if rest == {} {
      assert s == {x};
      assert IsLeast(x, s);
    } else {
      HasLeast(rest);
      var m :| IsLeast(m, rest);
      assert forall k <- s :: k == x || k in rest;
      assert IsLeast(if m <= x then m else x, s);
    }
  }

  function Least(s: set<u64>): (m: u64)
    requires s != {}
    ensures IsLeast(m, s)
  {
    HasLeast(s);
    var m :| IsLeast(m, s);
    m
  }

  predicate StrictlyAscending(keys: seq<u64>) {
    forall i, j :: 0 <= i < j < |keys| ==> keys[i] < keys[j]
  }

  /** The keys of `s` in the order a `BTreeMap` yields them. */
  function Ascending(s: set<u64>): (keys: seq<u64>)
    ensures forall k :: k in keys <==> k in s
    ensures StrictlyAscending(keys)
    ensures |keys| == |s|
  {
    if s == {} then [] else
    var m := Least(s);
    var rest := Ascending(s - {m});
    assert forall k <- rest :: m < k;
    [m] + rest
  }
}
