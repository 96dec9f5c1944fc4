/**
 * The static helper class `Dql`. Its one piece of state, the static
 * `$counter` behind parameter names, is the field `counter` of a `Dql`
 * object; each helper that touches a `QueryBuilder` names in `modifies`
 * exactly the parts of the builder it changes.
 *
 * Each call that generates a name also receives the token `uniqid()`
 * produced for it.
 */
module DqlHelper {
  import opened Expressions
  import opened Normalization
  import opened ParamNames
  import opened QueryBuilders

  /** The parameters `dql` registers for a batch: each given value, with no declared type. */
  function Untyped(batch: map<string, Value>): map<string, Param>
  {
    map k | k in batch :: Param(batch[k], None)
  }

  /** Registering one more entry adds exactly its untyped parameter. */
  lemma UntypedUpdate(batch: map<string, Value>, key: string, v: Value)
    ensures Untyped(batch[key := v]) == Untyped(batch)[key := Param(v, None)]
  {
  }

  /** The slugs of `min` and `max` have the same length, so their names are told apart by the counter. */
  lemma MinMaxSlugs()
    ensures |Slug("min")| == |Slug("max")|
  {
    assert "min"[0] == 'm' && "min"[1] == 'i' && "min"[2] == 'n';
    assert "max"[0] == 'm' && "max"[1] == 'a' && "max"[2] == 'x';
  }

  class Dql {
    /** `Dql::$counter`: how many names have been generated so far. */
    var counter: nat

    constructor ()
      ensures counter == 0
    {
      counter := 0;
    }

    // -------------------------------------------------------------------------
    // Parameter names and batches
    // -------------------------------------------------------------------------

    method GenerateParamName(varName: string, token: Token) returns (name: string)
      modifies this
      ensures counter == old(counter) + 1
      ensures name == ParamName(varName, token, counter)
    {
      counter := counter + 1;
      name := ParamName(varName, token, counter);
    }

    /** Registers every entry of `params` on `qb` and returns `expression` untouched. */
    method Dql(qb: QueryBuilder, expression: string, params: map<string, Value>) returns (r: string)
      modifies qb`params
      ensures r == expression
      ensures qb.params == old(qb.params) + Untyped(params)
      ensures forall k :: k in params ==> qb.params[k] == Param(params[k], None)
      ensures forall k :: k in old(qb.params) && k !in params ==> qb.params[k] == old(qb.params)[k]
      ensures params == map[] ==> qb.params == old(qb.params)
    {
      var todo := params.Keys;
      while todo != {}
        invariant todo <= params.Keys
        invariant qb.params == old(qb.params) + Untyped(params - todo)
        decreases todo
      {
        var key :| key in todo;
        qb.SetParameter(key, params[key], None);
        ghost var done := params - todo;
        todo := todo - {key};
        assert params - todo == done[key := params[key]];
        UntypedUpdate(done, key, params[key]);
      }
      assert params - todo == params;
      assert forall k :: k in params ==> k in Untyped(params) && Untyped(params)[k] == Param(params[k], None);
      r := expression;
    }

    /** Copies the parameters of every source into `target`, source by source. */
    method ImportParameters(target: QueryBuilder, sources: seq<QueryBuilder>)
      modifies target`params
      ensures target.params == MergeAll(old(target.params), old(SourceStores(sources, target)))
    {
      ghost var stores := SourceStores(sources, target);
      var i := 0;
      while i < |sources|
        invariant 0 <= i <= |sources|
        invariant target.params == MergeAll(old(target.params), stores[..i])
      {
        var source := sources[i];
        var incoming := source.params;
        ghost var before := target.params;
        var names := incoming.Keys;
        while names != {}
          invariant names <= incoming.Keys
          invariant target.params == before + (incoming - names)
          decreases names
        {
          var name :| name in names;
          target.SetParameter(name, incoming[name].value, incoming[name].paramType);
          names := names - {name};
          assert incoming - names == (incoming - (names + {name}))[name := incoming[name]];
        }
        assert incoming - names == incoming;
        assert target.params == before + stores[i] by {
          if source == target {
            assert before + incoming == before;
          }
        }
        assert stores[..i + 1][..i] == stores[..i];
        i := i + 1;
      }
      assert stores[..i] == stores;
    }

    // -------------------------------------------------------------------------
    // Binders: one fresh parameter each
    // -------------------------------------------------------------------------

    /** Generates a name for `varName`, binds `value` to it and returns its placeholder. */
    method BindFresh(qb: QueryBuilder, varName: string, value: Value, paramType: Option<string>, token: Token)
      returns (placeholder: string)
      modifies this, qb`params
      ensures counter == old(counter) + 1
      ensures placeholder == ":" + ParamName(varName, token, counter)
      ensures qb.params == old(qb.params)[ParamName(varName, token, counter) := Param(value, paramType)]
    {
      var name := GenerateParamName(varName, token);
      qb.SetParameter(name, value, paramType);
      placeholder := ":" + name;
    }

    method Compare(qb: QueryBuilder, op: CompOp, varName: string, value: Value, paramType: Option<string>, token: Token)
      returns (e: Expr)
      modifies this, qb`params
      ensures counter == old(counter) + 1
      ensures e == Comparison(varName, op, ":" + ParamName(varName, token, counter))
      ensures qb.params == old(qb.params)[ParamName(varName, token, counter) := Param(value, paramType)]
    {
      var placeholder := BindFresh(qb, varName, value, paramType, token);
      e := Comparison(varName, op, placeholder);
    }

    method Eq(qb: QueryBuilder, varName: string, value: Value, paramType: Option<string>, token: Token) returns (e: Expr)
      modifies this, qb`params
      ensures counter == old(counter) + 1
      ensures e == Comparison(varName, CompOp.Eq, ":" + ParamName(varName, token, counter))
      ensures qb.params == old(qb.params)[ParamName(varName, token, counter) := Param(value, paramType)]
    {
      e := Compare(qb, CompOp.Eq, varName, value, paramType, token);
    }

    method Neq(qb: QueryBuilder, varName: string, value: Value, paramType: Option<string>, token: Token) returns (e: Expr)
      modifies this, qb`params
      ensures counter == old(counter) + 1
      ensures e == Comparison(varName, CompOp.Neq, ":" + ParamName(varName, token, counter))
      ensures qb.params == old(qb.params)[ParamName(varName, token, counter) := Param(value, paramType)]
    {
      e := Compare(qb, CompOp.Neq, varName, value, paramType, token);
    }

    method Lt(qb: QueryBuilder, varName: string, value: Value, paramType: Option<string>, token: Token) returns (e: Expr)
      modifies this, qb`params
      ensures counter == old(counter) + 1
      ensures e == Comparison(varName, CompOp.Lt, ":" + ParamName(varName, token, counter))
      ensures qb.params == old(qb.params)[ParamName(varName, token, counter) := Param(value, paramType)]
    {
      e := Compare(qb, CompOp.Lt, varName, value, paramType, token);
    }

    method Lte(qb: QueryBuilder, varName: string, value: Value, paramType: Option<string>, token: Token) returns (e: Expr)
      modifies this, qb`params
      ensures counter == old(counter) + 1
      ensures e == Comparison(varName, CompOp.Lte, ":" + ParamName(varName, token, counter))
      ensures qb.params == old(qb.params)[ParamName(varName, token, counter) := Param(value, paramType)]
    {
      e := Compare(qb, CompOp.Lte, varName, value, paramType, token);
    }

    method Gt(qb: QueryBuilder, varName: string, value: Value, paramType: Option<string>, token: Token) returns (e: Expr)
      modifies this, qb`params
      ensures counter == old(counter) + 1
      ensures e == Comparison(varName, CompOp.Gt, ":" + ParamName(varName, token, counter))
      ensures qb.params == old(qb.params)[ParamName(varName, token, counter) := Param(value, paramType)]
    {
      e := Compare(qb, CompOp.Gt, varName, value, paramType, token);
    }

    method Gte(qb: QueryBuilder, varName: string, value: Value, paramType: Option<string>, token: Token) returns (e: Expr)
      modifies this, qb`params
      ensures counter == old(counter) + 1
      ensures e == Comparison(varName, CompOp.Gte, ":" + ParamName(varName, token, counter))
      ensures qb.params == old(qb.params)[ParamName(varName, token, counter) := Param(value, paramType)]
    {
      e := Compare(qb, CompOp.Gte, varName, value, paramType, token);
    }

    method Like(qb: QueryBuilder, varName: string, value: Value, paramType: Option<string>, token: Token) returns (e: Expr)
      modifies this, qb`params
      ensures counter == old(counter) + 1
      ensures e == Comparison(varName, CompOp.Like, ":" + ParamName(varName, token, counter))
      ensures qb.params == old(qb.params)[ParamName(varName, token, counter) := Param(value, paramType)]
    {
      e := Compare(qb, CompOp.Like, varName, value, paramType, token);
    }

    method NotLike(qb: QueryBuilder, varName: string, value: Value, paramType: Option<string>, token: Token) returns (e: Expr)
      modifies this, qb`params
      ensures counter == old(counter) + 1
      ensures e == Comparison(varName, CompOp.NotLike, ":" + ParamName(varName, token, counter))
      ensures qb.params == old(qb.params)[ParamName(varName, token, counter) := Param(value, paramType)]
    {
      e := Compare(qb, CompOp.NotLike, varName, value, paramType, token);
    }

    /** Like the comparisons, but the parameter is registered without a type. */
    method IsInstanceOf(qb: QueryBuilder, varName: string, value: Value, token: Token) returns (e: Expr)
      modifies this, qb`params
      ensures counter == old(counter) + 1
      ensures e == Comparison(varName, InstanceOf, ":" + ParamName(varName, token, counter))
      ensures qb.params == old(qb.params)[ParamName(varName, token, counter) := Param(value, None)]
    {
      e := Compare(qb, InstanceOf, varName, value, None, token);
    }

    /** An update assignment `varName = :name`, appended to the builder's `SET` list. */
    method Set(qb: QueryBuilder, varName: string, value: Value, paramType: Option<string>, token: Token)
      returns (r: QueryBuilder)
      modifies this, qb`params, qb`sets
      ensures r == qb
      ensures counter == old(counter) + 1
      ensures qb.params == old(qb.params)[ParamName(varName, token, counter) := Param(value, paramType)]
      ensures qb.sets == old(qb.sets) + [(varName, ":" + ParamName(varName, token, counter))]
    {
      var placeholder := BindFresh(qb, varName, value, paramType, token);
      qb.Set(varName, placeholder);
      r := qb;
    }

    /** Two fresh names, for `min` then `max`; both stay bound. */
    method Between(qb: QueryBuilder, varName: string, min: Value, max: Value, paramType: Option<string>,
                   minToken: Token, maxToken: Token) returns (e: Expr)
      modifies this, qb`params
      ensures counter == old(counter) + 2
      ensures e == Expr.Between(varName, ":" + ParamName("min", minToken, counter - 1),
                                         ":" + ParamName("max", maxToken, counter))
      ensures qb.params == old(qb.params)[ParamName("min", minToken, counter - 1) := Param(min, paramType)]
                                         [ParamName("max", maxToken, counter) := Param(max, paramType)]
      ensures ParamName("min", minToken, counter - 1) != ParamName("max", maxToken, counter)
      ensures qb.params[ParamName("min", minToken, counter - 1)] == Param(min, paramType)
      ensures qb.params[ParamName("max", maxToken, counter)] == Param(max, paramType)
    {
      var minVar := GenerateParamName("min", minToken);
      var maxVar := GenerateParamName("max", maxToken);
      qb.SetParameter(minVar, min, paramType);
      qb.SetParameter(maxVar, max, paramType);
      e := Expr.Between(varName, ":" + minVar, ":" + maxVar);
      MinMaxSlugs();
      ParamNamesDistinct("min", minToken, counter - 1, "max", maxToken, counter);
    }

    // -------------------------------------------------------------------------
    // Combining conditions
    // -------------------------------------------------------------------------

    method AndX(conditions: seq<Item>) returns (e: Expr)
      ensures e == Junction(And, Normalize(conditions))
      ensures NullFree(e.parts)
    {
      var parts := NormalizeExpressions(conditions);
      NormalizeNullFree(conditions);
      e := Junction(And, parts);
    }

    method OrX(conditions: seq<Item>) returns (e: Expr)
      ensures e == Junction(Or, Normalize(conditions))
      ensures NullFree(e.parts)
    {
      var parts := NormalizeExpressions(conditions);
      NormalizeNullFree(conditions);
      e := Junction(Or, parts);
    }

    /** `andX`, installed as the `where` clause when it has at least one part. */
    method RequireAll(qb: QueryBuilder, conditions: seq<Item>) returns (e: Expr)
      modifies qb`where
      ensures e == Junction(And, Normalize(conditions))
      ensures qb.where == if e.Count() > 0 then Some(e) else old(qb.where)
    {
      e := AndX(conditions);
      if e.Count() > 0 {
        qb.Where(e);
      }
    }

    /** `orX`, installed as the `where` clause when it has at least one part. */
    method RequireAny(qb: QueryBuilder, conditions: seq<Item>) returns (e: Expr)
      modifies qb`where
      ensures e == Junction(Or, Normalize(conditions))
      ensures qb.where == if e.Count() > 0 then Some(e) else old(qb.where)
    {
      e := OrX(conditions);
      if e.Count() > 0 {
        qb.Where(e);
      }
    }

    // -------------------------------------------------------------------------
    // Sub-queries
    // -------------------------------------------------------------------------

    /**
     * `EXISTS (subquery)`. `sub` is the sub-query when it is a builder (null
     * when it was given as text); `subquery` is its DQL, rendered by Doctrine.
     */
    method Exists(qb: QueryBuilder, sub: QueryBuilder?, subquery: string, importParameters: bool) returns (e: Expr)
      modifies qb`params
      ensures e == Expr.Exists(subquery)
      ensures importParameters && sub != null ==>
                qb.params == MergeAll(old(qb.params), old(SourceStores([sub], qb)))
      ensures !(importParameters && sub != null) ==> qb.params == old(qb.params)
    {
      e := Expr.Exists(subquery);
      if importParameters && sub != null {
        ImportParameters(qb, [sub]);
      }
    }

    method NotExists(qb: QueryBuilder, sub: QueryBuilder?, subquery: string, importParameters: bool) returns (e: Expr)
      modifies qb`params
      ensures e == Not(Expr.Exists(subquery))
      ensures importParameters && sub != null ==>
                qb.params == MergeAll(old(qb.params), old(SourceStores([sub], qb)))
      ensures !(importParameters && sub != null) ==> qb.params == old(qb.params)
    {
      var inner := Exists(qb, sub, subquery, importParameters);
      e := Not(inner);
    }

    // -------------------------------------------------------------------------
    // Pagination
    // -------------------------------------------------------------------------

    /**
     * `limit` is the argument after PHP's `(int)` cast, with `None` for the
     * default `null` (which casts to 0).
     */
    method PaginateResult(qb: QueryBuilder, limit: Option<int>, offset: int)
      modifies qb`firstResult, qb`maxResults
      ensures limit.Some? && limit.value > 0 ==> qb.firstResult == offset && qb.maxResults == Some(limit.value)
      ensures !(limit.Some? && limit.value > 0) ==>
                qb.firstResult == old(qb.firstResult) && qb.maxResults == old(qb.maxResults)
    {
      var n := if limit.Some? then limit.value else 0;
      if n > 0 {
        qb.SetFirstResult(offset);
        qb.SetMaxResults(n);
      }
    }
  }
}
