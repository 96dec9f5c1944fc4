/**
 * `Dql::normalizeExpressions`: the clean-up applied to a condition list before
 * it is combined with `andX` / `orX`.
 *
 * Top-level `null`s are dropped, top-level arrays are spliced into the result
 * one level deep, and an array found inside such an array is not spliced but
 * kept as ONE element, itself normalised. The result is therefore not flat.
 */
module Normalization {
  import opened Expressions

  // ---------------------------------------------------------------------------
  // Specification
  // ---------------------------------------------------------------------------

  /** What the outer `foreach` contributes for each entry, in order. */
  function Normalize(xs: seq<Item>): seq<Item>
    decreases xs
  {
    if xs == [] then [] else Normalize(xs[..|xs| - 1]) + TopLevel(xs[|xs| - 1])
  }

  /** One entry of the outer list: `null` is dropped, an array is spliced. */
  function TopLevel(x: Item): seq<Item>
    decreases x
  {
    match x
    case Null => []
    case Atom(_) => [x]
    case Arr(ys) => Spliced(ys)
  }

  /** The inner `foreach` over a top-level array. */
  function Spliced(ys: seq<Item>): seq<Item>
    decreases ys
  {
    if ys == [] then [] else Spliced(ys[..|ys| - 1]) + Nested(ys[|ys| - 1])
  }

  /** One entry of a top-level array: `null` is dropped, an array is normalised and kept whole. */
  function Nested(y: Item): seq<Item>
    decreases y
  {
    match y
    case Null => []
    case Atom(_) => [y]
    case Arr(zs) => [Arr(Normalize(zs))]
  }

  // ---------------------------------------------------------------------------
  // The loop as written
  // ---------------------------------------------------------------------------

  /** The nested `foreach` loops of the source, appending to the local result array. */
  method NormalizeExpressions(expressions: seq<Item>) returns (normalized: seq<Item>)
    ensures normalized == Normalize(expressions)
    decreases expressions
  {
    normalized := [];
    var i := 0;
    while i < |expressions|
      invariant 0 <= i <= |expressions|
      invariant normalized == Normalize(expressions[..i])
    {
      var expression := expressions[i];
      assert expressions[..i + 1][..i] == expressions[..i];
      if expression.Arr? {
        ghost var before := normalized;
        var j := 0;
        while j < |expression.items|
          invariant 0 <= j <= |expression.items|
          invariant normalized == before + Spliced(expression.items[..j])
        {
          var exp := expression.items[j];
          assert expression.items[..j + 1][..j] == expression.items[..j];
          if exp.Arr? {
            var inner := NormalizeExpressions(exp.items);
            normalized := normalized + [Arr(inner)];
          } else if !exp.Null? {
            normalized := normalized + [exp];
          }
          j := j + 1;
        }
        assert expression.items[..j] == expression.items;
      } else if !expression.Null? {
        normalized := normalized + [expression];
      }
      i := i + 1;
    }
    assert expressions[..i] == expressions;
  }

  // ---------------------------------------------------------------------------
  // Properties
  // ---------------------------------------------------------------------------

  /** No `null` at any depth. */
  ghost predicate NullFree(xs: seq<Item>)
    decreases xs
  {
    forall k :: 0 <= k < |xs| ==> xs[k] != Null && (xs[k].Arr? ==> NullFree(xs[k].items))
  }

  lemma NullFreeAppend(a: seq<Item>, b: seq<Item>)
    requires NullFree(a) && NullFree(b)
    ensures NullFree(a + b)
  {
    forall k | 0 <= k < |a + b|
      ensures (a + b)[k] != Null && ((a + b)[k].Arr? ==> NullFree((a + b)[k].items))
    {
      if k < |a| { assert (a + b)[k] == a[k]; } else { assert (a + b)[k] == b[k - |a|]; }
    }
  }

  /** The result of `normalizeExpressions` never holds a `null`, however deep. */
  lemma {:induction false} NormalizeNullFree(xs: seq<Item>)
    ensures NullFree(Normalize(xs))
    decreases xs
  {
    if xs != [] {
      NormalizeNullFree(xs[..|xs| - 1]);
      TopLevelNullFree(xs[|xs| - 1]);
      NullFreeAppend(Normalize(xs[..|xs| - 1]), TopLevel(xs[|xs| - 1]));
    }
  }

  lemma {:induction false} TopLevelNullFree(x: Item)
    ensures NullFree(TopLevel(x))
    decreases x
  {
    if x.Arr? {
      SplicedNullFree(x.items);
    }
  }

  lemma {:induction false} SplicedNullFree(ys: seq<Item>)
    ensures NullFree(Spliced(ys))
    decreases ys
  {
    if ys != [] {
      var y := ys[|ys| - 1];
      SplicedNullFree(ys[..|ys| - 1]);
      if y.Arr? {
        NormalizeNullFree(y.items);
        assert Nested(y) == [Arr(Normalize(y.items))];
      }
      NullFreeAppend(Spliced(ys[..|ys| - 1]), Nested(y));
    }
  }

  /** Normalisation works entry by entry: it distributes over concatenation. */
  lemma {:induction false} NormalizeAppend(a: seq<Item>, b: seq<Item>)
    ensures Normalize(a + b) == Normalize(a) + Normalize(b)
    decreases |b|
  {
    if b == [] {
      assert a + b == a;
    } else {
      var b' := b[..|b| - 1];
      assert (a + b)[..|a + b| - 1] == a + b';
      assert (a + b)[|a + b| - 1] == b[|b| - 1];
      NormalizeAppend(a, b');
    }
  }

  lemma {:induction false} SplicedAppend(a: seq<Item>, b: seq<Item>)
    ensures Spliced(a + b) == Spliced(a) + Spliced(b)
    decreases |b|
  {
    if b == [] {
      assert a + b == a;
    } else {
      var b' := b[..|b| - 1];
      assert (a + b)[..|a + b| - 1] == a + b';
      assert (a + b)[|a + b| - 1] == b[|b| - 1];
      SplicedAppend(a, b');
    }
  }

  /** Reference definitions: splice every top-level array once, and drop `null`s. */
  function FlattenOnce(xs: seq<Item>): seq<Item>
  {
    if xs == [] then []
    else FlattenOnce(xs[..|xs| - 1]) + (if xs[|xs| - 1].Arr? then xs[|xs| - 1].items else [xs[|xs| - 1]])
  }

  function DropNulls(xs: seq<Item>): seq<Item>
  {
    if xs == [] then [] else DropNulls(xs[..|xs| - 1]) + (if xs[|xs| - 1].Null? then [] else [xs[|xs| - 1]])
  }

  lemma {:induction false} DropNullsAppend(a: seq<Item>, b: seq<Item>)
    ensures DropNulls(a + b) == DropNulls(a) + DropNulls(b)
    decreases |b|
  {
    if b == [] {
      assert a + b == a;
    } else {
      var b' := b[..|b| - 1];
      assert (a + b)[..|a + b| - 1] == a + b';
      assert (a + b)[|a + b| - 1] == b[|b| - 1];
      DropNullsAppend(a, b');
    }
  }

  /** No array below the top level: every array entry holds only `null`s and expressions. */
  ghost predicate Shallow(xs: seq<Item>)
  {
    forall k, j :: 0 <= k < |xs| && xs[k].Arr? && 0 <= j < |xs[k].items| ==> !xs[k].items[j].Arr?
  }

  lemma {:induction false} SplicedFlat(ys: seq<Item>)
    requires forall j :: 0 <= j < |ys| ==> !ys[j].Arr?
    ensures Spliced(ys) == DropNulls(ys)
    decreases |ys|
  {
    if ys != [] {
      SplicedFlat(ys[..|ys| - 1]);
    }
  }

  /**
   * On a list whose arrays hold no arrays, `normalizeExpressions` is the
   * in-order concatenation of the entries with every `null` removed.
   */
  lemma {:induction false} NormalizeShallow(xs: seq<Item>)
    requires Shallow(xs)
    ensures Normalize(xs) == DropNulls(FlattenOnce(xs))
    decreases |xs|
  {
    if xs != [] {
      var init, x := xs[..|xs| - 1], xs[|xs| - 1];
      NormalizeShallow(init);
      var piece := if x.Arr? then x.items else [x];
      DropNullsAppend(FlattenOnce(init), piece);
      if x.Arr? {
        SplicedFlat(x.items);
      }
    }
  }

  /** Splicing `[a, b]` and `[c]` is the same as listing `a, b, c` at the top (one level). */
  lemma FlatArraysSplice(ys: seq<Item>, zs: seq<Item>)
    requires forall j :: 0 <= j < |ys| ==> !ys[j].Arr?
    requires forall j :: 0 <= j < |zs| ==> !zs[j].Arr?
    ensures Normalize([Arr(ys), Arr(zs)]) == Normalize(ys + zs)
  {
    var both := [Arr(ys), Arr(zs)];
    assert both[..1] == [Arr(ys)];
    assert Normalize(both) == Normalize([Arr(ys)]) + Spliced(zs);
    SingleArray(ys);
    SplicedAppend(ys, zs);
    var flat := ys + zs;
    assert forall j :: 0 <= j < |flat| ==> !flat[j].Arr? by {
      forall j | 0 <= j < |flat| ensures !flat[j].Arr? {
        if j < |ys| { assert flat[j] == ys[j]; } else { assert flat[j] == zs[j - |ys|]; }
      }
    }
    NoArraysNormalize(flat);
  }

  lemma SingleArray(ys: seq<Item>)
    ensures Normalize([Arr(ys)]) == Spliced(ys)
  {
    assert [Arr(ys)][..0] == [];
  }

  lemma NoArraysNormalize(xs: seq<Item>)
    requires forall j :: 0 <= j < |xs| ==> !xs[j].Arr?
    ensures Normalize(xs) == Spliced(xs)
  {
    NormalizeShallow(xs);
    FlattenOnceNoArrays(xs);
    SplicedFlat(xs);
  }

  lemma {:induction false} FlattenOnceNoArrays(xs: seq<Item>)
    requires forall j :: 0 <= j < |xs| ==> !xs[j].Arr?
    ensures FlattenOnce(xs) == xs
    decreases |xs|
  {
    if xs != [] {
      FlattenOnceNoArrays(xs[..|xs| - 1]);
    }
  }

  /**
   * An array two levels down is not spliced: it survives as a single element,
   * the normalisation of its own entries.
   */
  lemma {:induction false} DeepArraySurvives(xs: seq<Item>, k: nat, j: nat)
    requires k < |xs| && xs[k].Arr?
    requires j < |xs[k].items| && xs[k].items[j].Arr?
    ensures Arr(Normalize(xs[k].items[j].items)) in Normalize(xs)
  {
    var ys := xs[k].items;
    assert xs == xs[..k] + [xs[k]] + xs[k + 1..];
    NormalizeAppend(xs[..k] + [xs[k]], xs[k + 1..]);
    NormalizeAppend(xs[..k], [xs[k]]);
    assert [xs[k]][..0] == [];
    assert Normalize([xs[k]]) == Spliced(ys);
    assert ys == ys[..j] + [ys[j]] + ys[j + 1..];
    SplicedAppend(ys[..j] + [ys[j]], ys[j + 1..]);
    SplicedAppend(ys[..j], [ys[j]]);
    assert [ys[j]][..0] == [];
    assert Spliced([ys[j]]) == [Arr(Normalize(ys[j].items))];
  }

  /** So the result is not fully flat: `[[[e]]]` normalises to `[[e]]`, not to `[e]`. */
  lemma NotFullyFlat(e: Expr)
    ensures Normalize([Arr([Arr([Atom(e)])])]) == [Arr([Atom(e)])]
    ensures Normalize([Arr([Arr([Atom(e)])])]) != Normalize([Atom(e)])
  {
    assert [Arr([Atom(e)])][..0] == [];
    assert [Atom(e)][..0] == [];
    assert Normalize([Atom(e)]) == [Atom(e)];
    assert Spliced([Arr([Atom(e)])]) == [Arr([Atom(e)])];
  }
}
