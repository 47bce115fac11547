/** Option and Result, the two failure-carrying shapes the model uses for Go's
    nil results and (value, error) returns. */
module Wrappers {

  datatype Option<+T> = None | Some(value: T) {
    function GetOr(default: T): T {
      match this
      case Some(v) => v
      case None => default
    }
  }

  datatype Result<+R, +E> = Ok(value: R) | Err(error: E)

  /** The values of the Some entries, in order. */
  function Somes<T>(rows: seq<Option<T>>): (vs: seq<T>)
    ensures |vs| <= |rows|
  {
    if |rows| == 0 then []
    else
      var last := rows[|rows| - 1];
      var prev := Somes(rows[..|rows| - 1]);
      if last.Some? then prev + [last.value] else prev
  }

  /** Every value kept comes from a Some entry. */
  lemma {:induction false} SomesFrom<T>(rows: seq<Option<T>>)
    ensures forall k :: 0 <= k < |Somes(rows)| ==> Some(Somes(rows)[k]) in rows
  {
    if |rows| > 0 {
      var init := rows[..|rows| - 1];
      SomesFrom(init);
      var prev := Somes(init);
      forall k | 0 <= k < |prev| ensures Some(prev[k]) in rows {
        var j :| 0 <= j < |init| && init[j] == Some(prev[k]);
        assert rows[j] == Some(prev[k]);
      }
    }
  }

  lemma {:induction false} SomesConcat<T>(a: seq<Option<T>>, b: seq<Option<T>>)
    ensures Somes(a + b) == Somes(a) + Somes(b)
    decreases |b|
  {
    if |b| == 0 {
      assert a + b == a;
    } else {
      var ab := a + b;
      var b' := b[..|b| - 1];
      assert ab[..|ab| - 1] == a + b';
      assert ab[|ab| - 1] == b[|b| - 1];
      SomesConcat(a, b');
    }
  }

  /** Extending the rows by one adds that row's value, if any. */
  lemma SomesStep<T>(rows: seq<Option<T>>, i: nat)
    requires i < |rows|
    ensures Somes(rows[..i + 1]) == Somes(rows[..i]) + (if rows[i].Some? then [rows[i].value] else [])
  {
    assert rows[..i + 1][..i] == rows[..i];
  }

  /** A None row contributes nothing between the rows around it. */
  lemma SomesSkip<T>(a: seq<Option<T>>, b: seq<Option<T>>)
    ensures Somes(a + [None] + b) == Somes(a) + Somes(b)
  {
    SomesConcat(a + [None], b);
    SomesConcat(a, [None]);
    var none: seq<Option<T>> := [None];
    assert none[..0] == [];
  }

  /** A property every Some entry has, every kept value has. */
  lemma SomesKeep<T>(rows: seq<Option<T>>, p: T -> bool)
    requires forall k :: 0 <= k < |rows| && rows[k].Some? ==> p(rows[k].value)
    ensures forall k :: 0 <= k < |Somes(rows)| ==> p(Somes(rows)[k])
  {
    var vs := Somes(rows);
    SomesFrom(rows);
    forall k | 0 <= k < |vs| ensures p(vs[k]) {
      var j :| 0 <= j < |rows| && rows[j] == Some(vs[k]);
    }
  }
}
