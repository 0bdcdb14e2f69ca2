/** Small shared vocabulary: optional values, bytes and the least element of a finite set of ids. */
module Common {
  datatype Option<+T> = None | Some(value: T)

  newtype Byte = x: int | 0 <= x < 256
  type Bytes = seq<Byte>

  function Max(a: real, b: real): real {
    if a >= b then a else b
  }

  /** No fraction. */
  predicate Whole(x: real) {
    x == x.Floor as real
  }

  lemma IntIsWhole(n: int)
    ensures Whole(n as real)
  {
  }

  lemma WholeSum(x: real, y: real)
    requires Whole(x) && Whole(y)
    ensures Whole(x + y) && Whole(x - y)
  {
    var m, n := x.Floor, y.Floor;
    IntIsWhole(m + n);
    IntIsWhole(m - n);
    assert x + y == (m + n) as real;
    assert x - y == (m - n) as real;
    hide Whole;
  }

  lemma {:induction false} HasLeast(ids: set<nat>)
    requires ids != {}
    ensures exists m :: m in ids && forall x :: x in ids ==> m <= x
  {
    var some :| some in ids;
    var rest := ids - {some};
    var least := some;
    if rest != {} {
      HasLeast(rest);
      var m :| m in rest && forall x :: x in rest ==> m <= x;
      least := if m <= some then m else some;
    }
    forall x | x in ids ensures least <= x {
      if x != some { assert x in rest; }
    }
    assert least in ids;
  }

  /** `SELECT ... ORDER BY id LIMIT 1`: the lowest id, if any. */
  function Lowest(ids: set<nat>): (r: Option<nat>)
    ensures r == None <==> ids == {}
    ensures r.Some? ==> r.value in ids && forall x :: x in ids ==> r.value <= x
  {
    if ids == {} then None
    else
      HasLeast(ids);
      var m :| m in ids && forall x :: x in ids ==> m <= x;
      Some(m)
  }
}
