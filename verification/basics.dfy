/** Small notions that several parts share. */
module Basics {
  datatype Option<+T> = None | Some(value: T)

  /** A database update was answered, took effect without an answer, or did not take effect. */
  datatype Answer = Answered | Lost | Refused

  function Min(a: nat, b: nat): nat { if a <= b then a else b }

  lemma {:induction false} SubsetSize(a: set<nat>, b: set<nat>)
    requires a <= b
    ensures |a| <= |b| && (|a| == |b| ==> a == b)
    decreases |a|
  {
    if a != {} {
      var x :| x in a;
      SubsetSize(a - {x}, b - {x});
      assert a == (a - {x}) + {x} && b == (b - {x}) + {x};
    }
  }

  /** A number that is not in use. */
  lemma {:induction false} FreshId(ids: set<nat>) returns (n: nat)
    ensures forall id :: id in ids ==> id < n
    decreases |ids|
  {
    n := 0;
    if ids != {} {
      var x :| x in ids;
      var m := FreshId(ids - {x});
      n := if m > x then m else x + 1;
      assert forall id :: id in ids ==> id == x || id in ids - {x};
    }
  }

  predicate Distinct(ids: seq<nat>) {
    forall i, j :: 0 <= i < j < |ids| ==> ids[i] != ids[j]
  }

  function Elements(ids: seq<nat>): set<nat> {
    set id | id in ids
  }

  lemma {:induction false} SetOfSize(ids: seq<nat>)
    ensures |Elements(ids)| <= |ids|
    ensures |Elements(ids)| == |ids| <==> Distinct(ids)
  {
    if ids != [] {
      var last, front := ids[|ids| - 1], ids[..|ids| - 1];
      SetOfSize(front);
      if last in front {
        assert Elements(ids) == Elements(front);
        var i :| 0 <= i < |front| && front[i] == last;
        assert ids[i] == ids[|ids| - 1];
      } else {
        assert Elements(ids) == Elements(front) + {last};
        assert forall i :: 0 <= i < |front| ==> front[i] == ids[i] && ids[i] != last;
        assert Distinct(ids) <==> Distinct(front);
      }
    }
  }
}
