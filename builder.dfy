/**
 The fluent builder: it keeps the list built so far and appends an operator
 and a clause on each call, so the list is a valid chain at every step.
 */
module Builder {
  import opened QueryModel
  import opened Validator

  class QueryBuilder {
    /** The list accumulated so far. */
    var queries: seq<Elem>

    /** The accumulated list is a valid chain. */
    ghost predicate Valid()
      reads this
    {
      ValidatePatternWithError(queries) == Verdict.Valid
    }

    /** Starts a builder whose list holds the initial clause alone. */
    constructor (initialQuery: Elem)
      requires IsValidQuery(initialQuery)
      ensures Valid() && queries == [initialQuery]
    {
      queries := [initialQuery];
      SingleClauseValid(initialQuery);
    }

    /** Returns a copy of the list; the builder is unchanged. */
    method Build() returns (r: seq<Elem>)
      requires Valid()
      ensures r == queries
      ensures ValidatePatternWithError(r) == Verdict.Valid
      ensures |r| % 2 == 1 && forall i :: 0 <= i < |r| && i % 2 == 1 ==> IsOperatorElem(r[i])
    {
      r := queries;
      ValidateClassifies(r);
      forall i | 0 <= i < |r| && i % 2 == 1 ensures IsOperatorElem(r[i]) {
        assert SlotOk(r, i);
      }
    }

    /** Appends `op` and then `query`; nothing else changes. */
    method Append(op: string, query: Elem)
      requires Valid() && IsOperator(op) && IsValidQuery(query)
      modifies this
      ensures Valid()
      ensures queries == old(queries) + [Tok(op), query]
    {
      AppendKeepsValid(queries, op, query);
      queries := queries + [Tok(op), query];
    }

    /** Appends "AND" and `query`, returning this builder for chaining. */
    method And(query: Elem) returns (b: QueryBuilder)
      requires Valid() && IsValidQuery(query)
      modifies this
      ensures Valid() && b == this
      ensures queries == old(queries) + [Tok("AND"), query]
    {
      Append("AND", query);
      b := this;
    }

    /** Appends "OR" and `query`, returning this builder for chaining. */
    method Or(query: Elem) returns (b: QueryBuilder)
      requires Valid() && IsValidQuery(query)
      modifies this
      ensures Valid() && b == this
      ensures queries == old(queries) + [Tok("OR"), query]
    {
      Append("OR", query);
      b := this;
    }

    /** Appends "AND NOT" and `query`, returning this builder for chaining. */
    method AndNot(query: Elem) returns (b: QueryBuilder)
      requires Valid() && IsValidQuery(query)
      modifies this
      ensures Valid() && b == this
      ensures queries == old(queries) + [Tok("AND NOT"), query]
    {
      Append("AND NOT", query);
      b := this;
    }

    /** Appends "OR NOT" and `query`, returning this builder for chaining. */
    method OrNot(query: Elem) returns (b: QueryBuilder)
      requires Valid() && IsValidQuery(query)
      modifies this
      ensures Valid() && b == this
      ensures queries == old(queries) + [Tok("OR NOT"), query]
    {
      Append("OR NOT", query);
      b := this;
    }
  }

  /**
   The chained calls of the builder test: one clause and four appended
   operators give the nine-element alternating list, and a list built
   earlier is not affected by later calls.
   */
  method ChainAllOperators(a: Elem, b: Elem, c: Elem, d: Elem, e: Elem) returns (first: seq<Elem>, r: seq<Elem>)
    requires IsValidQuery(a) && IsValidQuery(b) && IsValidQuery(c)
    requires IsValidQuery(d) && IsValidQuery(e)
    ensures r == [a, Tok("AND"), b, Tok("OR"), c, Tok("AND NOT"), d, Tok("OR NOT"), e]
    ensures ValidatePatternWithError(r) == Verdict.Valid
    ensures first == [a]
  {
    var builder := new QueryBuilder(a);
    first := builder.Build();
    var x := builder.And(b);
    x := x.Or(c);
    x := x.AndNot(d);
    x := x.OrNot(e);
    r := x.Build();
  }
}
