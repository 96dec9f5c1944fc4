/**
 * The part of Doctrine's `QueryBuilder` that the helpers touch: its parameter
 * store, its `where` clause, its result window and its update `SET` list.
 * `setParameter` is taken to insert or overwrite one entry by name.
 */
module QueryBuilders {
  import opened Expressions

  datatype Option<T> = None | Some(value: T)

  /** A PHP value bound to a parameter; the helpers never look inside it. */
  datatype Value = NullValue | BoolValue(b: bool) | IntValue(i: int) | StringValue(s: string) | ObjectValue(id: nat)

  /** A registered parameter: its value and its declared type (`None`: left to Doctrine). */
  datatype Param = Param(value: Value, paramType: Option<string>)

  class QueryBuilder {
    var params: map<string, Param>
    var where: Option<Expr>
    var firstResult: int
    var maxResults: Option<int>
    var sets: seq<(string, string)>

    constructor ()
      ensures params == map[] && where == None
      ensures firstResult == 0 && maxResults == None && sets == []
    {
      params := map[];
      where := None;
      firstResult := 0;
      maxResults := None;
      sets := [];
    }

    method SetParameter(key: string, value: Value, paramType: Option<string>)
      modifies this`params
      ensures params == old(params)[key := Param(value, paramType)]
    {
      params := params[key := Param(value, paramType)];
    }

    method Where(condition: Expr)
      modifies this`where
      ensures where == Some(condition)
    {
      where := Some(condition);
    }

    method SetFirstResult(first: int)
      modifies this`firstResult
      ensures firstResult == first
    {
      firstResult := first;
    }

    method SetMaxResults(max: int)
      modifies this`maxResults
      ensures maxResults == Some(max)
    {
      maxResults := Some(max);
    }

    method Set(key: string, value: string)
      modifies this`sets
      ensures sets == old(sets) + [(key, value)]
    {
      sets := sets + [(key, value)];
    }
  }

  // ---------------------------------------------------------------------------
  // Merging parameter stores
  // ---------------------------------------------------------------------------

  /** The target's parameters after copying in every source's, one source after another. */
  function MergeAll(target: map<string, Param>, sources: seq<map<string, Param>>): map<string, Param>
    decreases |sources|
  {
    if sources == [] then target
    else MergeAll(target, sources[..|sources| - 1]) + sources[|sources| - 1]
  }

  /** After a merge, a name is bound exactly when the target or some source bound it. */
  lemma {:induction false} MergeAllKeys(target: map<string, Param>, sources: seq<map<string, Param>>, k: string)
    ensures k in MergeAll(target, sources) <==> k in target || exists i :: 0 <= i < |sources| && k in sources[i]
    decreases |sources|
  {
    if sources != [] {
      var init := sources[..|sources| - 1];
      MergeAllKeys(target, init, k);
      if exists i :: 0 <= i < |sources| && k in sources[i] {
        var i :| 0 <= i < |sources| && k in sources[i];
        if i < |sources| - 1 { assert k in init[i]; }
      }
      if exists i :: 0 <= i < |init| && k in init[i] {
        var i :| 0 <= i < |init| && k in init[i];
        assert k in sources[i];
      }
    }
  }

  /** A target parameter that no source names keeps its value. */
  lemma {:induction false} MergeAllKeepsUntouched(target: map<string, Param>, sources: seq<map<string, Param>>, k: string)
    requires k in target
    requires forall i :: 0 <= i < |sources| ==> k !in sources[i]
    ensures k in MergeAll(target, sources) && MergeAll(target, sources)[k] == target[k]
    decreases |sources|
  {
    if sources != [] {
      var init := sources[..|sources| - 1];
      assert forall i :: 0 <= i < |init| ==> init[i] == sources[i];
      MergeAllKeepsUntouched(target, init, k);
    }
  }

  /** On a name clash the last source that names the parameter wins. */
  lemma {:induction false} MergeAllLastWins(target: map<string, Param>, sources: seq<map<string, Param>>, j: nat, k: string)
    requires j < |sources| && k in sources[j]
    requires forall i :: j < i < |sources| ==> k !in sources[i]
    ensures k in MergeAll(target, sources) && MergeAll(target, sources)[k] == sources[j][k]
    decreases |sources|
  {
    if j < |sources| - 1 {
      var init := sources[..|sources| - 1];
      assert forall i :: j < i < |init| ==> init[i] == sources[i];
      MergeAllLastWins(target, init, j, k);
    }
  }

  /**
   * The parameter stores read from `sources`, except that the target itself
   * contributes nothing: copying a builder's parameters into itself changes
   * none of them.
   */
  ghost function SourceStores(sources: seq<QueryBuilder>, target: QueryBuilder): (r: seq<map<string, Param>>)
    reads sources
    ensures |r| == |sources|
    ensures forall i :: 0 <= i < |sources| ==> r[i] == if sources[i] == target then map[] else sources[i].params
    decreases |sources|
  {
    if sources == [] then []
    else
      var last := sources[|sources| - 1];
      SourceStores(sources[..|sources| - 1], target) + [if last == target then map[] else last.params]
  }
}
