/** Shared vocabulary. */
module Basics {

  datatype Option<+T> = None | Some(value: T) {
    function GetOr(default: T): T {
      match this
      case Some(v) => v
      case None => default
    }
  }

  ghost function Member<T>(s: set<T>): (x: T)
    requires s != {}
    ensures x in s
  {
    var x :| x in s;
    x
  }

  lemma SubsetSize<T>(s: set<T>, t: set<T>)
    requires s <= t
    ensures |s| <= |t|
  {
    assert s + (t - s) == t;
    assert |s + (t - s)| == |s| + |t - s|;
  }

  /** The elements of a set, in some order. */
  method Listed<T(==)>(s: set<T>) returns (r: seq<T>)
    ensures (set x | x in r) == s
  {
    r := [];
    var rest := s;
    while rest != {}
      invariant (set x | x in r) + rest == s
    {
      var x :| x in rest;
      r, rest := r + [x], rest - {x};
    }
  }
}
