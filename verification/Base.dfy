// Small vocabulary shared by the other modules.

module Base {
  datatype Option<+T> = None | Some(value: T)

  predicate IsMax(s: set<nat>, m: nat) { m in s && forall x | x in s :: x <= m }

  predicate IsMin(s: set<nat>, m: nat) { m in s && forall x | x in s :: m <= x }

  lemma {:induction false} MaxExists(s: set<nat>)
    requires s != {}
    ensures exists m :: IsMax(s, m)
    decreases |s|
  {
    var y :| y in s;
    var rest := s - {y};
    if rest == {} {
      assert s == {y};
      assert IsMax(s, y);
    } else {
      MaxExists(rest);
      var m :| IsMax(rest, m);
      var top := if m < y then y else m;
      forall x | x in s ensures x <= top { assert x == y || x in rest; }
      assert IsMax(s, top);
    }
  }

  /** The greatest element: SQL's `MAX(epoch)` and Python's `max(...)`. */
  function Max(s: set<nat>): (m: nat)
    requires s != {}
    ensures m in s
    ensures forall x :: x in s ==> x <= m
  {
    MaxExists(s);
    var m :| IsMax(s, m);
    m
  }

  lemma {:induction false} MinExists(s: set<nat>)
    requires s != {}
    ensures exists m :: IsMin(s, m)
    decreases |s|
  {
    var y :| y in s;
    var rest := s - {y};
    if rest == {} {
      assert s == {y};
      assert IsMin(s, y);
    } else {
      MinExists(rest);
      var m :| IsMin(rest, m);
      var low := if m < y then m else y;
      forall x | x in s ensures low <= x { assert x == y || x in rest; }
      assert IsMin(s, low);
    }
  }

  /** The least element: the first row of an ascending scan. */
  function Min(s: set<nat>): (m: nat)
    requires s != {}
    ensures m in s
    ensures forall x :: x in s ==> m <= x
  {
    MinExists(s);
    var m :| IsMin(s, m);
    m
  }
}
